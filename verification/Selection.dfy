/** The two passes that force chunks into the result: required sources, then one approved candidate. */
module Selection {
  import opened Seqs
  import opened Sorting
  import opened Ranking
  import opened Fusion

  // _ensure_required_chunks

  predicate FirstInSource(a: Chunk, b: Chunk) {
    a.chunkIndex < b.chunkIndex || (a.chunkIndex == b.chunkIndex && StringLe(a.chunkId, b.chunkId))
  }

  function ChunksOfSource(chunks: seq<Chunk>, sourceId: string): seq<Chunk> {
    Filter((c: Chunk) => c.sourceId == sourceId, chunks)
  }

  /** Position of the first hit of a source, or the length. */
  function FindSource(hits: seq<Hit>, sourceId: string): (i: nat)
    ensures i <= |hits|
    ensures i < |hits| ==> hits[i].chunk.sourceId == sourceId
    ensures forall j :: 0 <= j < i ==> hits[j].chunk.sourceId != sourceId
  {
    if hits == [] || hits[0].chunk.sourceId == sourceId then 0 else 1 + FindSource(hits[1..], sourceId)
  }

  function Promote(h: Hit): Hit { h.(score := 1.0, features := RequiredSource) }

  function BareHit(c: Chunk): Hit { Hit(c, 0.0, 0.0, 0.0, 0.0, NoFeatures, false) }

  /** Move the first hit of the source to the front; if there is none, insert the source's first chunk. */
  function ForceOne(hits: seq<Hit>, chunks: seq<Chunk>, sourceId: string): seq<Hit> {
    var i, candidates := FindSource(hits, sourceId), ChunksOfSource(chunks, sourceId);
    if i < |hits| then [Promote(hits[i])] + Without(hits, i)
    else if candidates == [] then hits
    else [Promote(BareHit(Sort(FirstInSource, candidates)[0]))] + hits
  }

  /** All required sources, the last one first, so that the first one ends up in front. */
  function ForceAll(hits: seq<Hit>, chunks: seq<Chunk>, sourceIds: seq<string>): seq<Hit> {
    if sourceIds == [] then hits else ForceOne(ForceAll(hits, chunks, sourceIds[1..]), chunks, sourceIds[0])
  }

  /** _ensure_required_chunks */
  method EnsureRequiredChunks(reranked: seq<Hit>, chunks: seq<Chunk>, sourceIds: seq<string>) returns (output: seq<Hit>)
    ensures output == ForceAll(reranked, chunks, sourceIds)
  {
    output := reranked;
    for i := |sourceIds| downto 0
      invariant output == ForceAll(reranked, chunks, sourceIds[i..])
    {
      assert sourceIds[i..][0] == sourceIds[i] && sourceIds[i..][1..] == sourceIds[i + 1..];
      var existing := FindSource(output, sourceIds[i]);
      var best: Hit;
      if existing == |output| {
        var candidates := ChunksOfSource(chunks, sourceIds[i]);
        if candidates == [] {
          continue;
        }
        best := BareHit(Sort(FirstInSource, candidates)[0]);
      } else {
        best := output[existing];
        output := Without(output, existing);
      }
      output := [Promote(best)] + output;
    }
  }

  predicate Available(chunks: seq<Chunk>, sourceId: string) {
    exists c :: c in chunks && c.sourceId == sourceId
  }

  /** The required sources that have any chunk in the pool, in order. */
  function AvailableOf(chunks: seq<Chunk>, sourceIds: seq<string>): seq<string> {
    if sourceIds == [] then []
    else (if Available(chunks, sourceIds[0]) then [sourceIds[0]] else []) + AvailableOf(chunks, sourceIds[1..])
  }

  /** A forced hit for each source, in order, in front of the remaining hits. */
  ghost predicate Forced(hits: seq<Hit>, chunks: seq<Chunk>, sources: seq<string>, front: seq<Hit>, tail: seq<Hit>) {
    ForcedFront(chunks, sources, front) && HitsFrom(tail, chunks) && Fronted(HitId, hits, front, tail)
  }

  ghost predicate ForcedFront(chunks: seq<Chunk>, sources: seq<string>, front: seq<Hit>) {
    && |front| == |sources| && HitsFrom(front, chunks)
    && (forall j :: 0 <= j < |front| ==>
          front[j].chunk.sourceId == sources[j] && front[j].features == RequiredSource && front[j].score == 1.0)
  }

  lemma ForcedFrontCons(chunks: seq<Chunk>, sources: seq<string>, front: seq<Hit>, h: Hit)
    requires ForcedFront(chunks, sources, front) && h.chunk in chunks
    ensures ForcedFront(chunks, [h.chunk.sourceId] + sources, [Promote(h)] + front)
  {}

  lemma BestOfSource(chunks: seq<Chunk>, sourceId: string)
    requires ChunksOfSource(chunks, sourceId) != []
    ensures var c := Sort(FirstInSource, ChunksOfSource(chunks, sourceId))[0]; c in chunks && c.sourceId == sourceId
  {
    var candidates := ChunksOfSource(chunks, sourceId);
    assert Sort(FirstInSource, candidates)[0] in Sort(FirstInSource, candidates);
  }

  /** The source is among the remaining hits: the hit moves to the front. */
  lemma MoveToFront(hits: seq<Hit>, chunks: seq<Chunk>, sources: seq<string>, front: seq<Hit>, tail: seq<Hit>,
                    sourceId: string, k: nat)
    requires Forced(hits, chunks, sources, front, tail)
    requires DistinctIds(hits) && k < |tail| && tail[k].chunk.sourceId == sourceId
    ensures Forced(hits, chunks, [sourceId] + sources, [Promote(tail[k])] + front, Without(tail, k))
  {
    assert tail[k] in tail;
    ForcedFrontCons(chunks, sources, front, tail[k]);
    FrontMove(HitId, hits, front, tail, k, Promote(tail[k]));
  }

  lemma OtherSourceOtherId(chunks: seq<Chunk>, h: Hit, c: Chunk)
    requires DistinctChunkIds(chunks) && h.chunk in chunks && c in chunks && h.chunk.sourceId != c.sourceId
    ensures HitId(h) != c.chunkId
  {
    if HitId(h) == c.chunkId {
      KeyDetermines(IdOf, chunks, h.chunk, c);
    }
  }

  /** The source is not in the list: its first chunk is inserted. */
  lemma InsertInFront(hits: seq<Hit>, chunks: seq<Chunk>, sources: seq<string>, front: seq<Hit>, tail: seq<Hit>,
                      sourceId: string, c: Chunk)
    requires Forced(hits, chunks, sources, front, tail) && DistinctChunkIds(chunks)
    requires c in chunks && c.sourceId == sourceId
    requires forall h :: h in front ==> h.chunk.sourceId != sourceId
    requires forall h :: h in tail ==> h.chunk.sourceId != sourceId
    ensures Forced(hits, chunks, [sourceId] + sources, [Promote(BareHit(c))] + front, tail)
  {
    forall h | h in front ensures HitId(h) != HitId(BareHit(c)) {
      OtherSourceOtherId(chunks, h, c);
    }
    forall h | h in tail ensures HitId(h) != HitId(BareHit(c)) {
      OtherSourceOtherId(chunks, h, c);
    }
    FrontInsert(HitId, hits, front, tail, Promote(BareHit(c)));
  }

  lemma NotInFront(sources: seq<string>, front: seq<Hit>, tail: seq<Hit>, sourceId: string)
    requires |front| == |sources| && forall j :: 0 <= j < |front| ==> front[j].chunk.sourceId == sources[j]
    requires sourceId !in sources
    ensures FindSource(front + tail, sourceId) >= |front|
  {
    assert forall j :: 0 <= j < |front| ==> (front + tail)[j] == front[j] && sources[j] in sources;
  }

  lemma ForcePresent(hits: seq<Hit>, chunks: seq<Chunk>, sources: seq<string>, front: seq<Hit>, tail: seq<Hit>,
                     sourceId: string) returns (front': seq<Hit>, tail': seq<Hit>)
    requires Forced(hits, chunks, sources, front, tail) && sourceId !in sources && DistinctIds(hits)
    requires FindSource(front + tail, sourceId) < |front + tail|
    ensures ForceOne(front + tail, chunks, sourceId) == front' + tail'
    ensures Available(chunks, sourceId) && Forced(hits, chunks, [sourceId] + sources, front', tail')
  {
    NotInFront(sources, front, tail, sourceId);
    var k := FindSource(front + tail, sourceId) - |front|;
    assert tail[k] == (front + tail)[|front| + k];
    MoveToFront(hits, chunks, sources, front, tail, sourceId, k);
    front', tail' := [Promote(tail[k])] + front, Without(tail, k);
    ForcedMove(front, tail, chunks, sourceId, k);
  }

  lemma ForcedMove(front: seq<Hit>, tail: seq<Hit>, chunks: seq<Chunk>, sourceId: string, k: nat)
    requires k < |tail| && FindSource(front + tail, sourceId) == |front| + k
    ensures ForceOne(front + tail, chunks, sourceId) == [Promote(tail[k])] + front + Without(tail, k)
  {
    WithoutSplit(front, tail, k);
    ConsAppend(Promote(tail[k]), front, Without(tail, k));
  }

  lemma NoneOfSource(front: seq<Hit>, tail: seq<Hit>, sourceId: string)
    requires FindSource(front + tail, sourceId) == |front + tail|
    ensures forall h :: h in front ==> h.chunk.sourceId != sourceId
    ensures forall h :: h in tail ==> h.chunk.sourceId != sourceId
  {
    var r := front + tail;
    assert forall i :: 0 <= i < |front| ==> r[i] == front[i];
    assert forall i :: 0 <= i < |tail| ==> r[|front| + i] == tail[i];
  }

  lemma ForceAbsent(r: seq<Hit>, chunks: seq<Chunk>, sourceId: string) returns (c: Chunk)
    requires FindSource(r, sourceId) == |r| && ChunksOfSource(chunks, sourceId) != []
    ensures c in chunks && c.sourceId == sourceId
    ensures ForceOne(r, chunks, sourceId) == [Promote(BareHit(c))] + r
  {
    BestOfSource(chunks, sourceId);
    c := Sort(FirstInSource, ChunksOfSource(chunks, sourceId))[0];
  }

  lemma SourceAvailable(chunks: seq<Chunk>, sourceId: string)
    ensures Available(chunks, sourceId) <==> ChunksOfSource(chunks, sourceId) != []
  {
    var candidates := ChunksOfSource(chunks, sourceId);
    if candidates != [] {
      assert candidates[0] in candidates;
    }
  }

  lemma ForceOneFacts(hits: seq<Hit>, chunks: seq<Chunk>, sources: seq<string>, front: seq<Hit>, tail: seq<Hit>,
                      sourceId: string) returns (front': seq<Hit>, tail': seq<Hit>)
    requires Forced(hits, chunks, sources, front, tail) && DistinctChunkIds(chunks) && sourceId !in sources
    requires DistinctIds(hits)
    ensures ForceOne(front + tail, chunks, sourceId) == front' + tail'
    ensures Forced(hits, chunks, (if Available(chunks, sourceId) then [sourceId] else []) + sources, front', tail')
  {
    SourceAvailable(chunks, sourceId);
    if FindSource(front + tail, sourceId) < |front + tail| {
      front', tail' := ForcePresent(hits, chunks, sources, front, tail, sourceId);
    } else if Available(chunks, sourceId) {
      var c := ForceAbsent(front + tail, chunks, sourceId);
      NoneOfSource(front, tail, sourceId);
      InsertInFront(hits, chunks, sources, front, tail, sourceId, c);
      front', tail' := [Promote(BareHit(c))] + front, tail;
      ConsAppend(Promote(BareHit(c)), front, tail);
    } else {
      front', tail' := front, tail;
      assert [] + sources == sources;
    }
  }

  /**
   * After the required pass the list starts with one hit of each available required source, in the required
   * order; behind them the remaining hits keep their order, and no id is lost or repeated.
   */
  lemma {:induction false} ForceAllFacts(hits: seq<Hit>, chunks: seq<Chunk>, sourceIds: seq<string>)
    returns (front: seq<Hit>, tail: seq<Hit>)
    requires DistinctIds(hits) && HitsFrom(hits, chunks) && DistinctChunkIds(chunks) && Distinct(sourceIds)
    ensures ForceAll(hits, chunks, sourceIds) == front + tail
    ensures Forced(hits, chunks, AvailableOf(chunks, sourceIds), front, tail)
  {
    if sourceIds == [] {
      front, tail := [], hits;
      assert [] + hits == hits;
      ExcludingNone(HitId, hits);
    } else {
      assert Distinct(sourceIds[1..]) && sourceIds[0] !in sourceIds[1..];
      front, tail := ForceAllFacts(hits, chunks, sourceIds[1..]);
      AvailableMembers(chunks, sourceIds[1..]);
      front, tail := ForceOneFacts(hits, chunks, AvailableOf(chunks, sourceIds[1..]), front, tail, sourceIds[0]);
    }
  }

  lemma AvailableMembers(chunks: seq<Chunk>, sourceIds: seq<string>)
    ensures forall s :: s in AvailableOf(chunks, sourceIds) <==> s in sourceIds && Available(chunks, s)
  {}

  // _ensure_approved_candidate_chunks

  predicate Strong(h: Hit) { h.lexical >= 3.0 || h.vector >= 0.5 }

  predicate ApprovedHit(h: Hit) { Approved(h.chunk) }

  predicate Eligible(h: Hit) { ApprovedHit(h) && Strong(h) }

  /** The sort key (-lexical_score, -score, chunk_id). */
  predicate BetterCandidate(a: Hit, b: Hit) {
    a.lexical > b.lexical || (a.lexical == b.lexical && BestFirst(ScoreOf, a, b))
  }

  lemma BetterCandidateTotal()
    ensures TotalPreorder(BetterCandidate)
  {
    BestFirstTotal(ScoreOf);
    var le := BestFirstBy(ScoreOf);
    forall a: Hit, b: Hit ensures BetterCandidate(a, b) || BetterCandidate(b, a) {
      assert le(a, b) || le(b, a);
    }
    forall a: Hit, b: Hit, c: Hit | BetterCandidate(a, b) && BetterCandidate(b, c) ensures BetterCandidate(a, c) {
      assert le(a, b) && le(b, c) ==> le(a, c);
    }
  }

  /** The approved chunks of the pool that are not selected yet. */
  function ApprovedPool(pool: seq<Chunk>, selected: seq<Hit>): seq<Chunk> {
    var taken := Map(HitId, selected);
    Filter((c: Chunk) => Approved(c) && c.chunkId !in taken, pool)
  }

  function RescoreFallback(h: Hit): Hit { h.(score := h.rrf + Min(h.lexical, 10.0) * 0.01) }

  /** Approved chunks from the pool: the top five by each ranking, fused. */
  function FallbackHits(pool: seq<Chunk>, selected: seq<Hit>, queryText: string, queryEmbedding: seq<real>): seq<Hit> {
    var approved := ApprovedPool(pool, selected);
    Map(RescoreFallback,
        Filter(Strong, RrfMerge(Head(RankLexical(approved, queryText), 5),
                                Head(RankVector(approved, queryEmbedding), 5))))
  }

  /** The candidates for the forced slot: from the reranked rest, else from the pool. */
  function Candidates(reranked: seq<Hit>, limit: nat, pool: seq<Chunk>, queryText: string, queryEmbedding: seq<real>)
    : seq<Hit>
  {
    var selected := Head(reranked, limit);
    var rest := Filter(Eligible, if limit <= |reranked| then reranked[limit..] else []);
    if rest == [] && pool != [] && queryText != "" then FallbackHits(pool, selected, queryText, queryEmbedding)
    else rest
  }

  function Include(h: Hit): Hit { h.(approvedInclusion := true) }

  /** Append to a list with room, else overwrite its last slot. */
  function PlaceLast(selected: seq<Hit>, limit: nat, h: Hit): seq<Hit>
    requires limit > 0
  {
    if |selected| < limit then selected + [h] else selected[..|selected| - 1] + [h]
  }

  /** _ensure_approved_candidate_chunks */
  function EnsureApproved(reranked: seq<Hit>, limit: int, pool: seq<Chunk>, queryText: string,
                          queryEmbedding: seq<real>)
    : seq<Hit>
  {
    if limit <= 0 then []
    else
      var selected := Head(reranked, limit);
      if exists h :: h in selected && ApprovedHit(h) then selected
      else
        var candidates := Candidates(reranked, limit, pool, queryText, queryEmbedding);
        if candidates == [] then selected
        else PlaceLast(selected, limit, Include(Sort(BetterCandidate, candidates)[0]))
  }

  lemma FusedFrom(a: seq<Hit>, b: seq<Hit>, pool: seq<Chunk>)
    requires HitsFrom(a, pool) && HitsFrom(b, pool)
    ensures HitsFrom(RrfMerge(a, b), pool)
  {
    FuseAllFrom([], a, true, pool);
    FuseAllFrom(FuseAll([], a, true), b, false, pool);
  }

  lemma {:induction false} FuseAllFrom(table: seq<Hit>, hits: seq<Hit>, lexical: bool, pool: seq<Chunk>)
    requires HitsFrom(table, pool) && HitsFrom(hits, pool)
    ensures HitsFrom(FuseAll(table, hits, lexical), pool)
  {
    if hits != [] {
      FuseAllFrom(table, hits[..|hits| - 1], lexical, pool);
      assert hits[|hits| - 1] in hits;
    }
  }

  // The score of an id never drops in the fused table.

  /** The table has an entry for the id with at least these scores. */
  ghost predicate Holds(table: seq<Hit>, id: string, lexical: real, vector: real) {
    exists h :: h in table && HitId(h) == id && h.lexical >= lexical && h.vector >= vector
  }

  lemma FuseIntoHolds(table: seq<Hit>, h: Hit, rank: nat, lexical: bool, id: string, l: real, v: real)
    requires rank > 0 && (Holds(table, id, l, v) || (HitId(h) == id && h.lexical >= l && h.vector >= v
                                                    && Find(table, id) == |table|))
    ensures Holds(FuseInto(table, h, rank, lexical), id, l, v)
  {
    var t, k := FuseInto(table, h, rank, lexical), Find(table, HitId(h));
    if Holds(table, id, l, v) {
      var g :| g in table && HitId(g) == id && g.lexical >= l && g.vector >= v;
      var i :| 0 <= i < |table| && table[i] == g;
      assert t[i] in t;
    } else {
      assert t[k] in t;
    }
  }

  lemma {:induction false} FuseAllHolds(table: seq<Hit>, hits: seq<Hit>, lexical: bool, id: string, l: real, v: real)
    requires Holds(table, id, l, v)
    ensures Holds(FuseAll(table, hits, lexical), id, l, v)
  {
    if hits != [] {
      FuseAllHolds(table, hits[..|hits| - 1], lexical, id, l, v);
      FuseIntoHolds(FuseAll(table, hits[..|hits| - 1], lexical), hits[|hits| - 1], |hits|, lexical, id, l, v);
    }
  }

  ghost predicate NonNegative(hits: seq<Hit>) { forall h :: h in hits ==> h.lexical >= 0.0 && h.vector >= 0.0 }

  lemma {:induction false} FuseAllNonNegative(table: seq<Hit>, hits: seq<Hit>, lexical: bool)
    requires NonNegative(table) && NonNegative(hits)
    ensures NonNegative(FuseAll(table, hits, lexical))
  {
    if hits != [] {
      FuseAllNonNegative(table, hits[..|hits| - 1], lexical);
      assert hits[|hits| - 1] in hits;
      var t := FuseAll(table, hits[..|hits| - 1], lexical);
      var k := Find(t, HitId(hits[|hits| - 1]));
      assert k < |t| ==> t[k] in t;
    }
  }

  /** The best entry of a ranking keeps its own score in the fused table. */
  lemma {:induction false} FuseAllFirst(table: seq<Hit>, hits: seq<Hit>, lexical: bool)
    requires hits != [] && NonNegative(table) && NonNegative(hits)
    ensures Holds(FuseAll(table, hits, lexical), HitId(hits[0]),
                  if lexical then hits[0].lexical else 0.0, if lexical then 0.0 else hits[0].vector)
  {
    var l, v := if lexical then hits[0].lexical else 0.0, if lexical then 0.0 else hits[0].vector;
    var init := hits[..|hits| - 1];
    if |hits| == 1 {
      assert init == [] && hits[0] in hits && FuseAll(table, init, lexical) == table;
      var t, k := FuseInto(table, hits[0], 1, lexical), Find(table, HitId(hits[0]));
      assert FuseAll(table, hits, lexical) == t;
      assert k < |table| ==> table[k] in table;
      assert t[k] in t && HitId(t[k]) == HitId(hits[0]) && t[k].lexical >= l && t[k].vector >= v;
    } else {
      FuseAllFirst(table, init, lexical);
      FuseIntoHolds(FuseAll(table, init, lexical), hits[|hits| - 1], |hits|, lexical, HitId(hits[0]), l, v);
    }
  }

  lemma FusionKeepsBest(a: seq<Hit>, b: seq<Hit>)
    requires NonNegative(a) && NonNegative(b)
    ensures a != [] ==> Holds(RrfMerge(a, b), HitId(a[0]), a[0].lexical, 0.0)
    ensures b != [] ==> Holds(RrfMerge(a, b), HitId(b[0]), 0.0, b[0].vector)
  {
    var first := FuseAll([], a, true);
    FuseAllNonNegative([], a, true);
    if a != [] {
      FuseAllFirst([], a, true);
      FuseAllHolds(first, b, false, HitId(a[0]), a[0].lexical, 0.0);
      HoldsSorted(FuseAll(first, b, false), HitId(a[0]), a[0].lexical, 0.0);
    }
    if b != [] {
      FuseAllFirst(first, b, false);
      HoldsSorted(FuseAll(first, b, false), HitId(b[0]), 0.0, b[0].vector);
    }
  }

  lemma HoldsSorted(table: seq<Hit>, id: string, l: real, v: real)
    requires Holds(table, id, l, v)
    ensures Holds(SortHits(RrfOf, table), id, l, v)
  {
    var h :| h in table && HitId(h) == id && h.lexical >= l && h.vector >= v;
    assert h in SortHits(RrfOf, table);
  }

  predicate StrongMatch(c: Chunk, queryText: string, queryEmbedding: seq<real>) {
    LexicalScore(c, queryText) >= 3 || Cosine(queryEmbedding, c.embedding) >= 0.5
  }

  lemma BestOfRanking(key: Hit -> real, scorer: Chunk -> Option<Hit>, chunks: seq<Chunk>, c: Chunk)
    requires forall c :: scorer(c).Some? ==> scorer(c).value.chunk == c
    requires c in chunks && scorer(c).Some?
    ensures var r := RankBy(key, scorer, chunks); r != [] && key(r[0]) >= key(scorer(c).value)
  {
    RankByFacts(key, scorer, chunks);
    var r := RankBy(key, scorer, chunks);
    assert scorer(c).value in r;
    var i :| 0 <= i < |r| && r[i] == scorer(c).value;
    assert i > 0 ==> BestFirst(key, r[0], r[i]);
  }

  /** A scorer reports the chunk it scores, with scores that are not negative. */
  ghost predicate FairScorer(scorer: Chunk -> Option<Hit>) {
    forall c :: scorer(c).Some? ==>
                  scorer(c).value.chunk == c && scorer(c).value.lexical >= 0.0 && scorer(c).value.vector >= 0.0
  }

  lemma ScorersFair(queryText: string, queryEmbedding: seq<real>)
    ensures FairScorer(LexicalScorer(queryText)) && FairScorer(VectorScorer(queryEmbedding))
  {}

  lemma TopFacts(key: Hit -> real, scorer: Chunk -> Option<Hit>, chunks: seq<Chunk>)
    requires FairScorer(scorer)
    ensures NonNegative(Head(RankBy(key, scorer, chunks), 5)) && HitsFrom(Head(RankBy(key, scorer, chunks), 5), chunks)
  {
    RankByFacts(key, scorer, chunks);
    var r := RankBy(key, scorer, chunks);
    forall h | h in Head(r, 5) ensures h.chunk in chunks && h.lexical >= 0.0 && h.vector >= 0.0 {
      assert h in r && scorer(h.chunk) == Some(h);
    }
  }

  function FusedTops(lexical: Chunk -> Option<Hit>, vector: Chunk -> Option<Hit>, chunks: seq<Chunk>): seq<Hit> {
    RrfMerge(Head(RankBy(LexicalOf, lexical, chunks), 5), Head(RankBy(VectorOf, vector, chunks), 5))
  }

  /** A strong score of one chunk leaves a strong hit in the fusion of the two top fives. */
  lemma TopFivesStrong(lexical: Chunk -> Option<Hit>, vector: Chunk -> Option<Hit>, chunks: seq<Chunk>, c: Chunk)
    requires FairScorer(lexical) && FairScorer(vector) && c in chunks
    requires (lexical(c).Some? && lexical(c).value.lexical >= 3.0) || (vector(c).Some? && vector(c).value.vector >= 0.5)
    ensures exists h :: h in FusedTops(lexical, vector, chunks) && Strong(h)
  {
    var lex, vec := Head(RankBy(LexicalOf, lexical, chunks), 5), Head(RankBy(VectorOf, vector, chunks), 5);
    TopFacts(LexicalOf, lexical, chunks);
    TopFacts(VectorOf, vector, chunks);
    if lexical(c).Some? && lexical(c).value.lexical >= 3.0 {
      BestOfRanking(LexicalOf, lexical, chunks, c);
      StrongHead(lex, vec, true);
    } else {
      BestOfRanking(VectorOf, vector, chunks, c);
      StrongHead(lex, vec, false);
    }
  }

  lemma StrongHead(lex: seq<Hit>, vec: seq<Hit>, useLexical: bool)
    requires NonNegative(lex) && NonNegative(vec)
    requires if useLexical then lex != [] && lex[0].lexical >= 3.0 else vec != [] && vec[0].vector >= 0.5
    ensures exists h :: h in RrfMerge(lex, vec) && Strong(h)
  {
    FusionKeepsBest(lex, vec);
    var id, l, v := if useLexical then HitId(lex[0]) else HitId(vec[0]),
                    if useLexical then lex[0].lexical else 0.0, if useLexical then 0.0 else vec[0].vector;
    var h :| h in RrfMerge(lex, vec) && HitId(h) == id && h.lexical >= l && h.vector >= v;
    assert Strong(h);
  }

  lemma StrongMatchScored(c: Chunk, queryText: string, queryEmbedding: seq<real>)
    requires StrongMatch(c, queryText, queryEmbedding)
    ensures var l, v := LexicalScorer(queryText)(c), VectorScorer(queryEmbedding)(c);
            (l.Some? && l.value.lexical >= 3.0) || (v.Some? && v.value.vector >= 0.5)
  {}

  lemma FallbackComplete(pool: seq<Chunk>, selected: seq<Hit>, queryText: string, queryEmbedding: seq<real>, c: Chunk)
    requires c in pool && Approved(c) && c.chunkId !in Map(HitId, selected)
    requires StrongMatch(c, queryText, queryEmbedding)
    ensures FallbackHits(pool, selected, queryText, queryEmbedding) != []
  {
    var approved := ApprovedPool(pool, selected);
    ScorersFair(queryText, queryEmbedding);
    StrongMatchScored(c, queryText, queryEmbedding);
    TopFivesStrong(LexicalScorer(queryText), VectorScorer(queryEmbedding), approved, c);
    var merged := FusedTops(LexicalScorer(queryText), VectorScorer(queryEmbedding), approved);
    var h :| h in merged && Strong(h);
    assert h in Filter(Strong, merged);
  }

  /** Fallback hits are approved chunks of the pool with ids that are not selected. */
  lemma FallbackFacts(pool: seq<Chunk>, selected: seq<Hit>, queryText: string, queryEmbedding: seq<real>)
    ensures forall h :: h in FallbackHits(pool, selected, queryText, queryEmbedding) ==>
                          h.chunk in pool && Eligible(h) && HitId(h) !in Map(HitId, selected)
  {
    var approved := ApprovedPool(pool, selected);
    var lexical, vector := LexicalScorer(queryText), VectorScorer(queryEmbedding);
    ScorersFair(queryText, queryEmbedding);
    TopFacts(LexicalOf, lexical, approved);
    TopFacts(VectorOf, vector, approved);
    FusedFrom(Head(RankBy(LexicalOf, lexical, approved), 5), Head(RankBy(VectorOf, vector, approved), 5), approved);
    RescoredStrong(FusedTops(lexical, vector, approved), approved);
  }

  lemma RescoredStrong(merged: seq<Hit>, approved: seq<Chunk>)
    requires HitsFrom(merged, approved)
    ensures forall h :: h in Map(RescoreFallback, Filter(Strong, merged)) ==> h.chunk in approved && Strong(h)
  {
    var strong := Filter(Strong, merged);
    forall h | h in Map(RescoreFallback, strong) ensures h.chunk in approved && Strong(h) {
      var i :| 0 <= i < |strong| && RescoreFallback(strong[i]) == h;
      assert strong[i] in strong;
    }
  }

  /** Every candidate for the forced slot is an eligible chunk of the pool that is not selected. */
  lemma CandidateFacts(reranked: seq<Hit>, limit: nat, pool: seq<Chunk>, queryText: string, queryEmbedding: seq<real>)
    requires DistinctIds(reranked) && HitsFrom(reranked, pool)
    ensures forall h :: h in Candidates(reranked, limit, pool, queryText, queryEmbedding) ==>
                          h.chunk in pool && Eligible(h) && HitId(h) !in Map(HitId, Head(reranked, limit))
  {
    FallbackFacts(pool, Head(reranked, limit), queryText, queryEmbedding);
    if limit <= |reranked| {
      forall h | h in reranked[limit..] ensures h.chunk in pool && HitId(h) !in Map(HitId, Head(reranked, limit)) {
        CutOffHit(reranked, limit, h);
      }
    }
  }

  lemma CutOffHit(hits: seq<Hit>, limit: nat, h: Hit)
    requires DistinctIds(hits) && limit <= |hits| && h in hits[limit..]
    ensures h in hits && HitId(h) !in Map(HitId, Head(hits, limit))
  {
    var selected, ids := Head(hits, limit), Map(HitId, hits);
    var i :| 0 <= i < |hits[limit..]| && hits[limit..][i] == h;
    assert h == hits[limit + i] && ids[limit + i] == HitId(h);
    forall j | 0 <= j < |selected| ensures Map(HitId, selected)[j] != HitId(h) {
      assert ids[j] == HitId(selected[j]);
    }
  }

  /** No candidate was needed or found: the reranked head stands. */
  predicate KeepsHead(reranked: seq<Hit>, limit: nat, pool: seq<Chunk>, queryText: string, queryEmbedding: seq<real>) {
    (exists h :: h in Head(reranked, limit) && ApprovedHit(h))
    || Candidates(reranked, limit, pool, queryText, queryEmbedding) == []
  }

  /**
   * The approved pass returns the head of the reranked list, or that head with the best eligible approved
   * candidate appended or put in its last slot; no id is repeated and the limit is respected.
   */
  lemma EnsureApprovedFacts(reranked: seq<Hit>, limit: int, pool: seq<Chunk>, queryText: string,
                            queryEmbedding: seq<real>)
    returns (added: Option<Hit>)
    requires limit > 0 && DistinctIds(reranked) && HitsFrom(reranked, pool)
    ensures var r := EnsureApproved(reranked, limit, pool, queryText, queryEmbedding);
            && |r| <= limit && DistinctIds(r) && HitsFrom(r, pool)
            && (added.None? <==> KeepsHead(reranked, limit, pool, queryText, queryEmbedding))
            && if added.None? then r == Head(reranked, limit)
               else
                 && r == PlaceLast(Head(reranked, limit), limit, Include(added.value))
                 && Eligible(added.value) && HitId(added.value) !in Map(HitId, Head(reranked, limit))
                 && added.value in Candidates(reranked, limit, pool, queryText, queryEmbedding)
                 && forall h :: h in Candidates(reranked, limit, pool, queryText, queryEmbedding) ==>
                                  BetterCandidate(added.value, h)
  {
    var selected := Head(reranked, limit);
    var r := EnsureApproved(reranked, limit, pool, queryText, queryEmbedding);
    HeadIds(reranked, limit);
    if KeepsHead(reranked, limit, pool, queryText, queryEmbedding) {
      added := None;
    } else {
      var candidates := Candidates(reranked, limit, pool, queryText, queryEmbedding);
      CandidateFacts(reranked, limit, pool, queryText, queryEmbedding);
      var best := BestCandidate(candidates);
      PlacedIds(selected, limit, Include(best));
      added := Some(best);
    }
  }

  lemma BestCandidate(candidates: seq<Hit>) returns (best: Hit)
    requires candidates != []
    ensures best == Sort(BetterCandidate, candidates)[0] && best in candidates
    ensures forall h :: h in candidates ==> BetterCandidate(best, h)
  {
    BetterCandidateTotal();
    SortSorted(BetterCandidate, candidates);
    var sorted := Sort(BetterCandidate, candidates);
    best := sorted[0];
    assert best in sorted;
    assert BetterCandidate(best, best);
    forall h | h in candidates ensures BetterCandidate(best, h) {
      assert h in sorted;
      var i :| 0 <= i < |sorted| && sorted[i] == h;
    }
  }

  lemma HeadIds(hits: seq<Hit>, limit: nat)
    requires DistinctIds(hits)
    ensures DistinctIds(Head(hits, limit))
    ensures forall h :: h in Head(hits, limit) ==> h in hits
  {
    assert Map(HitId, Head(hits, limit)) == Map(HitId, hits)[..|Head(hits, limit)|];
  }

  lemma PlacedIds(selected: seq<Hit>, limit: nat, h: Hit)
    requires limit > 0 && |selected| <= limit && DistinctIds(selected) && HitId(h) !in Map(HitId, selected)
    ensures DistinctIds(PlaceLast(selected, limit, h)) && |PlaceLast(selected, limit, h)| <= limit
    ensures forall g :: g in PlaceLast(selected, limit, h) ==> g in selected || g == h
  {
    var kept := if |selected| < limit then selected else selected[..|selected| - 1];
    var ids := Map(HitId, selected);
    assert Map(HitId, kept) == ids[..|kept|];
    assert Map(HitId, kept + [h]) == Map(HitId, kept) + [HitId(h)];
    DistinctAppend(Map(HitId, kept), [HitId(h)]);
  }

  /**
   * Inclusion is complete: whenever the pool holds an approved chunk that matches strongly, the result holds
   * an approved chunk, whatever the truncations on the way cut off.
   */
  lemma ApprovedInclusion(reranked: seq<Hit>, limit: int, pool: seq<Chunk>, queryText: string,
                          queryEmbedding: seq<real>,
                          c: Chunk)
    requires limit > 0 && queryText != "" && DistinctChunkIds(pool) && DistinctIds(reranked) && HitsFrom(reranked, pool)
    requires c in pool && Approved(c) && StrongMatch(c, queryText, queryEmbedding)
    ensures exists h :: h in EnsureApproved(reranked, limit, pool, queryText, queryEmbedding) && ApprovedHit(h)
  {
    var selected := Head(reranked, limit);
    var added := EnsureApprovedFacts(reranked, limit, pool, queryText, queryEmbedding);
    if !(exists h :: h in selected && ApprovedHit(h)) {
      ApprovedNotSelected(selected, pool, c);
      FallbackComplete(pool, selected, queryText, queryEmbedding, c);
      LastPlaced(selected, limit, Include(added.value));
    }
  }

  // The converse: strong hits of a fusion are strong matches

  /** A strong score of the hit says that its chunk passes the test. */
  predicate Backed(h: Hit, byWords: Chunk -> bool, byVector: Chunk -> bool) {
    (h.lexical >= 3.0 ==> byWords(h.chunk)) && (h.vector >= 0.5 ==> byVector(h.chunk))
  }

  ghost predicate AllBacked(hits: seq<Hit>, byWords: Chunk -> bool, byVector: Chunk -> bool) {
    forall h :: h in hits ==> Backed(h, byWords, byVector)
  }

  lemma FuseIntoBacked(table: seq<Hit>, h: Hit, rank: nat, lexical: bool, byWords: Chunk -> bool,
                       byVector: Chunk -> bool,
                       pool: seq<Chunk>)
    requires rank > 0 && DistinctChunkIds(pool) && HitsFrom(table, pool) && h.chunk in pool
    requires AllBacked(table, byWords, byVector) && Backed(h, byWords, byVector)
    ensures AllBacked(FuseInto(table, h, rank, lexical), byWords, byVector)
  {
    var k := Find(table, HitId(h));
    if k < |table| {
      assert table[k] in table;
      KeyDetermines(IdOf, pool, table[k].chunk, h.chunk);
    }
  }

  lemma {:induction false} FuseAllBacked(table: seq<Hit>, hits: seq<Hit>, lexical: bool, byWords: Chunk -> bool,
                                         byVector: Chunk -> bool, pool: seq<Chunk>)
    requires DistinctChunkIds(pool) && HitsFrom(table, pool) && HitsFrom(hits, pool)
    requires AllBacked(table, byWords, byVector) && AllBacked(hits, byWords, byVector)
    ensures AllBacked(FuseAll(table, hits, lexical), byWords, byVector)
  {
    if hits != [] {
      var init, last := hits[..|hits| - 1], hits[|hits| - 1];
      assert last in hits;
      FuseAllBacked(table, init, lexical, byWords, byVector, pool);
      FuseAllFrom(table, init, lexical, pool);
      FuseIntoBacked(FuseAll(table, init, lexical), last, |hits|, lexical, byWords, byVector, pool);
    }
  }

  lemma MergeBacked(a: seq<Hit>, b: seq<Hit>, byWords: Chunk -> bool, byVector: Chunk -> bool, pool: seq<Chunk>)
    requires DistinctChunkIds(pool) && HitsFrom(a, pool) && HitsFrom(b, pool)
    requires AllBacked(a, byWords, byVector) && AllBacked(b, byWords, byVector)
    ensures AllBacked(RrfMerge(a, b), byWords, byVector)
  {
    FuseAllBacked([], a, true, byWords, byVector, pool);
    FuseAllFrom([], a, true, pool);
    FuseAllBacked(FuseAll([], a, true), b, false, byWords, byVector, pool);
  }

  lemma TopBacked(key: Hit -> real, scorer: Chunk -> Option<Hit>, chunks: seq<Chunk>, byWords: Chunk -> bool,
                  byVector: Chunk -> bool)
    requires FairScorer(scorer)
    requires forall c :: scorer(c).Some? ==> Backed(scorer(c).value, byWords, byVector)
    ensures AllBacked(Head(RankBy(key, scorer, chunks), 5), byWords, byVector)
  {
    RankByFacts(key, scorer, chunks);
    var r := RankBy(key, scorer, chunks);
    assert forall h :: h in Head(r, 5) ==> h in r;
  }

  lemma ApprovedPoolIds(pool: seq<Chunk>, selected: seq<Hit>)
    requires DistinctChunkIds(pool)
    ensures DistinctChunkIds(ApprovedPool(pool, selected))
  {
    var taken := Map(HitId, selected);
    var keep := (c: Chunk) => Approved(c) && c.chunkId !in taken;
    FilterKeepsKeys(IdOf, keep, pool);
  }

  /** A strong fallback hit shows an approved chunk of the pool, not selected yet, that matches strongly. */
  lemma FallbackSound(pool: seq<Chunk>, selected: seq<Hit>, queryText: string, queryEmbedding: seq<real>)
    requires DistinctChunkIds(pool) && FallbackHits(pool, selected, queryText, queryEmbedding) != []
    ensures exists c :: c in pool && Approved(c) && c.chunkId !in Map(HitId, selected)
                        && StrongMatch(c, queryText, queryEmbedding)
  {
    var approved := ApprovedPool(pool, selected);
    ApprovedPoolIds(pool, selected);
    var h := FallbackWitness(approved, queryText, queryEmbedding,
                             FallbackHits(pool, selected, queryText, queryEmbedding));
    assert h.chunk in approved;
  }

  lemma FallbackWitness(approved: seq<Chunk>, queryText: string, queryEmbedding: seq<real>, fallback: seq<Hit>)
    returns (h: Hit)
    requires DistinctChunkIds(approved) && fallback != []
    requires fallback == Map(RescoreFallback,
                             Filter(Strong,
                                    FusedTops(LexicalScorer(queryText), VectorScorer(queryEmbedding), approved)))
    ensures h.chunk in approved && StrongMatch(h.chunk, queryText, queryEmbedding)
  {
    var words := (c: Chunk) => LexicalScore(c, queryText) >= 3;
    var vector := (c: Chunk) => Cosine(queryEmbedding, c.embedding) >= 0.5;
    ScorersFair(queryText, queryEmbedding);
    TopBacked(LexicalOf, LexicalScorer(queryText), approved, words, vector);
    TopBacked(VectorOf, VectorScorer(queryEmbedding), approved, words, vector);
    TopFacts(LexicalOf, LexicalScorer(queryText), approved);
    TopFacts(VectorOf, VectorScorer(queryEmbedding), approved);
    var a, b := Head(RankBy(LexicalOf, LexicalScorer(queryText), approved), 5),
                Head(RankBy(VectorOf, VectorScorer(queryEmbedding), approved), 5);
    MergeBacked(a, b, words, vector, approved);
    FusedFrom(a, b, approved);
    h := Filter(Strong, RrfMerge(a, b))[0];
    assert h in Filter(Strong, RrfMerge(a, b)) && Backed(h, words, vector);
  }

  /** An approved chunk of the pool that is not selected matches the (non-empty) query strongly. */
  ghost predicate StrongUnselected(pool: seq<Chunk>, selected: seq<Hit>, queryText: string, queryEmbedding: seq<real>) {
    queryText != ""
    && exists c :: c in pool && Approved(c) && c.chunkId !in Map(HitId, selected)
                   && StrongMatch(c, queryText, queryEmbedding)
  }

  /**
   * Exactly when the result holds an approved chunk: the head has one, a strong one was cut off, or the pool has
   * an unselected strong match and the query is not empty.
   */
  lemma ApprovedInclusionIff(reranked: seq<Hit>, limit: int, pool: seq<Chunk>, queryText: string,
                             queryEmbedding: seq<real>)
    requires limit > 0 && DistinctChunkIds(pool) && DistinctIds(reranked) && HitsFrom(reranked, pool)
    ensures var selected := Head(reranked, limit);
            (exists h :: h in EnsureApproved(reranked, limit, pool, queryText, queryEmbedding) && ApprovedHit(h))
            <==> (exists h :: h in selected && ApprovedHit(h))
                 || (exists h :: h in reranked[|selected|..] && Eligible(h))
                 || StrongUnselected(pool, selected, queryText, queryEmbedding)
  {
    var selected := Head(reranked, limit);
    var added := EnsureApprovedFacts(reranked, limit, pool, queryText, queryEmbedding);
    CandidatesIff(reranked, limit, pool, queryText, queryEmbedding);
    if added.Some? {
      LastPlaced(selected, limit, Include(added.value));
    }
  }

  lemma CandidatesIff(reranked: seq<Hit>, limit: nat, pool: seq<Chunk>, queryText: string, queryEmbedding: seq<real>)
    requires DistinctChunkIds(pool)
    ensures var selected := Head(reranked, limit);
            Candidates(reranked, limit, pool, queryText, queryEmbedding) != []
            <==> (exists h :: h in reranked[|selected|..] && Eligible(h))
                 || StrongUnselected(pool, selected, queryText, queryEmbedding)
  {
    var selected, cut := Head(reranked, limit), if limit <= |reranked| then reranked[limit..] else [];
    assert cut == reranked[|selected|..];
    var rest := Filter(Eligible, cut);
    if rest == [] {
      assert forall h :: h in cut ==> !Eligible(h);
      if FallbackHits(pool, selected, queryText, queryEmbedding) != [] {
        FallbackSound(pool, selected, queryText, queryEmbedding);
      }
      if StrongUnselected(pool, selected, queryText, queryEmbedding) {
        var c :| c in pool && Approved(c) && c.chunkId !in Map(HitId, selected)
                 && StrongMatch(c, queryText, queryEmbedding);
        FallbackComplete(pool, selected, queryText, queryEmbedding, c);
      }
    } else {
      assert rest[0] in rest;
    }
  }

  lemma ApprovedNotSelected(selected: seq<Hit>, pool: seq<Chunk>, c: Chunk)
    requires DistinctChunkIds(pool) && HitsFrom(selected, pool) && c in pool && Approved(c)
    requires forall h :: h in selected ==> !ApprovedHit(h)
    ensures c.chunkId !in Map(HitId, selected)
  {
    forall i | 0 <= i < |selected| ensures HitId(selected[i]) != c.chunkId {
      assert selected[i] in selected;
      if HitId(selected[i]) == c.chunkId {
        KeyDetermines(IdOf, pool, selected[i].chunk, c);
      }
    }
  }

  lemma LastPlaced(selected: seq<Hit>, limit: nat, h: Hit)
    requires limit > 0 && |selected| <= limit
    ensures var r := PlaceLast(selected, limit, h); r != [] && r[|r| - 1] == h && h in r && r[..|r| - 1] <= selected
  {}

  /** The forced hits all stay in front after the cut. */
  predicate AllStay(front: seq<Hit>, r: seq<Hit>) { front <= r }

  lemma FrontStaysIff(front: seq<Hit>, tail: seq<Hit>, limit: int, pool: seq<Chunk>, queryText: string,
                           queryEmbedding: seq<real>)
    requires limit > 0 && DistinctIds(front + tail) && HitsFrom(front + tail, pool)
    ensures AllStay(front, EnsureApproved(front + tail, limit, pool, queryText, queryEmbedding))
            <==> |front| < limit
                 || (|front| == limit && KeepsHead(front + tail, limit, pool, queryText, queryEmbedding))
  {
    var all, selected := front + tail, Head(front + tail, limit);
    var added := EnsureApprovedFacts(all, limit, pool, queryText, queryEmbedding);
    var r := EnsureApproved(all, limit, pool, queryText, queryEmbedding);
    assert front <= all;
    if |front| == limit {
      assert selected == front;
      if !KeepsHead(all, limit, pool, queryText, queryEmbedding) {
        assert r[limit - 1] == Include(added.value) && Map(HitId, selected)[limit - 1] == HitId(front[limit - 1]);
      }
    } else if |front| < limit {
      assert front <= selected;
    }
  }

  /**
   * Required sources survive the cut exactly when there are fewer of them than the limit, or just as many and the
   * approved pass has nothing to place: one of them is approved already, or no eligible hit stands behind them and no
   * unselected approved chunk of the pool matches strongly. It takes the last slot without looking.
   */
  lemma RequiredSurviveIff(front: seq<Hit>, tail: seq<Hit>, limit: int, pool: seq<Chunk>, queryText: string,
                           queryEmbedding: seq<real>)
    requires limit > 0 && DistinctIds(front + tail) && HitsFrom(front + tail, pool) && DistinctChunkIds(pool)
    ensures AllStay(front, EnsureApproved(front + tail, limit, pool, queryText, queryEmbedding))
            <==> |front| < limit
                 || (|front| == limit
                     && ((exists h :: h in front && ApprovedHit(h))
                         || ((forall h :: h in tail ==> !Eligible(h))
                             && !StrongUnselected(pool, front, queryText, queryEmbedding))))
  {
    FrontStaysIff(front, tail, limit, pool, queryText, queryEmbedding);
    if |front| == limit {
      CandidatesIff(front + tail, limit, pool, queryText, queryEmbedding);
      assert Head(front + tail, limit) == front && (front + tail)[|front|..] == tail;
    }
  }

  /** The two passes in the order of search_knowledge. */
  function Select(reranked: seq<Hit>, pool: seq<Chunk>, sourceIds: seq<string>, limit: int, queryText: string,
                  queryEmbedding: seq<real>): seq<Hit>
  {
    EnsureApproved(ForceAll(reranked, pool, sourceIds), limit, pool, queryText, queryEmbedding)
  }

  /** Behind the forced front: the remaining order, cut, with at most the last slot given to an approved chunk. */
  ghost predicate TailKept(tail: seq<Hit>, rest: seq<Hit>) {
    rest <= tail || (rest != [] && ApprovedHit(rest[|rest| - 1]) && rest[..|rest| - 1] <= tail)
  }

  lemma HeadTailKept(front: seq<Hit>, tail: seq<Hit>, limit: nat)
    requires |front| < limit
    ensures var r := Head(front + tail, limit); front <= r && TailKept(tail, r[|front|..])
  {
    assert Head(front + tail, limit)[|front|..] <= tail;
  }

  lemma TailAfterCut(front: seq<Hit>, tail: seq<Hit>, limit: nat, h: Hit)
    requires |front| < limit && ApprovedHit(h)
    ensures var r := PlaceLast(Head(front + tail, limit), limit, h); front <= r && TailKept(tail, r[|front|..])
  {
    var selected := Head(front + tail, limit);
    assert selected[|front|..] <= tail;
    var r := PlaceLast(selected, limit, h);
    LastPlaced(selected, limit, h);
    assert r[|front|..][..|r| - |front| - 1] == r[..|r| - 1][|front|..];
  }

  /**
   * With fewer available required sources than the limit, the result starts with one hit of each of them in
   * the required order, repeats no chunk id, respects the limit, and goes on with the reranked order except
   * that an approved candidate may stand in the last slot.
   */
  lemma RequiredSourcesSurvive(reranked: seq<Hit>, pool: seq<Chunk>, sourceIds: seq<string>, limit: int,
                               queryText: string, queryEmbedding: seq<real>)
    requires DistinctIds(reranked) && HitsFrom(reranked, pool) && DistinctChunkIds(pool) && Distinct(sourceIds)
    requires limit > 0 && |AvailableOf(pool, sourceIds)| < limit
    ensures var r := Select(reranked, pool, sourceIds, limit, queryText, queryEmbedding);
            var sources := AvailableOf(pool, sourceIds);
            && |sources| <= |r| <= limit && DistinctIds(r) && HitsFrom(r, pool)
            && (forall j :: 0 <= j < |sources| ==> r[j].chunk.sourceId == sources[j] && r[j].features == RequiredSource)
            && TailKept(Excluding(HitId, reranked, Map(HitId, r[..|sources|])), r[|sources|..])
  {
    var sources := AvailableOf(pool, sourceIds);
    var front, tail := ForceAllFacts(reranked, pool, sourceIds);
    ForcedIds(reranked, pool, sources, front, tail);
    var added := EnsureApprovedFacts(front + tail, limit, pool, queryText, queryEmbedding);
    var r := Select(reranked, pool, sourceIds, limit, queryText, queryEmbedding);
    if KeepsHead(front + tail, limit, pool, queryText, queryEmbedding) {
      HeadTailKept(front, tail, limit);
    } else {
      TailAfterCut(front, tail, limit, Include(added.value));
    }
    assert r[..|sources|] == front;
  }

  lemma ForcedIds(hits: seq<Hit>, pool: seq<Chunk>, sources: seq<string>, front: seq<Hit>, tail: seq<Hit>)
    requires Forced(hits, pool, sources, front, tail)
    ensures DistinctIds(front + tail) && HitsFrom(front + tail, pool)
  {
    assert Map(HitId, front + tail) == Map(HitId, front) + Map(HitId, tail);
  }
}
