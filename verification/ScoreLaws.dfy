/** Laws that the scores and orders of the retrieval pipeline obey, whatever the way they are computed. */
module ScoreLaws {
  import opened Seqs
  import opened Sorting
  import opened Text
  import opened QuerySignals
  import opened Ranking
  import opened Fusion
  import opened DerivedData

  // The vector score is the inner product

  function Scaled(a: real, v: seq<real>): seq<real> { Map((x: real) => a * x, v) }

  function Added(u: seq<real>, v: seq<real>): (w: seq<real>)
    requires |u| == |v|
    ensures |w| == |u| && forall i :: 0 <= i < |w| ==> w[i] == u[i] + v[i]
  {
    seq(|u|, i requires 0 <= i < |u| => u[i] + v[i])
  }

  /** The vector of length n with a one at position i. */
  function Unit(n: nat, i: nat): (u: seq<real>)
    ensures |u| == n && forall j :: 0 <= j < n ==> u[j] == if j == i then 1.0 else 0.0
  {
    seq(n, j => if j == i then 1.0 else 0.0)
  }

  lemma {:induction false} CosineSymmetric(u: seq<real>, v: seq<real>)
    ensures Cosine(u, v) == Cosine(v, u)
  {
    if u != [] && v != [] {
      CosineSymmetric(u[1..], v[1..]);
    }
  }

  lemma {:induction false} CosineScaled(u: seq<real>, a: real, v: seq<real>)
    ensures Cosine(u, Scaled(a, v)) == a * Cosine(u, v)
  {
    if u != [] && v != [] {
      assert Scaled(a, v)[1..] == Scaled(a, v[1..]);
      CosineScaled(u[1..], a, v[1..]);
      Distribute(a, u[0], v[0], Cosine(u[1..], v[1..]));
    }
  }

  lemma Distribute(a: real, x: real, y: real, rest: real)
    ensures x * (a * y) + a * rest == a * (x * y + rest)
  {}

  lemma {:induction false} CosineAdded(u: seq<real>, v: seq<real>, w: seq<real>)
    requires |v| == |w|
    ensures Cosine(u, Added(v, w)) == Cosine(u, v) + Cosine(u, w)
  {
    if u != [] && v != [] {
      assert Added(v, w)[1..] == Added(v[1..], w[1..]);
      CosineAdded(u[1..], v[1..], w[1..]);
      assert u[0] * (v[0] + w[0]) == u[0] * v[0] + u[0] * w[0];
    }
  }

  /** Vectors without a common non-zero position score nothing. */
  lemma {:induction false} CosineDisjoint(u: seq<real>, v: seq<real>)
    requires forall i :: 0 <= i < |u| && i < |v| ==> u[i] == 0.0 || v[i] == 0.0
    ensures Cosine(u, v) == 0.0
  {
    if u != [] && v != [] {
      assert u[0] == 0.0 || v[0] == 0.0;
      forall i | 0 <= i < |u[1..]| && i < |v[1..]| ensures u[1..][i] == 0.0 || v[1..][i] == 0.0 {
        assert u[i + 1] == 0.0 || v[i + 1] == 0.0;
      }
      CosineDisjoint(u[1..], v[1..]);
    }
  }

  /** A unit vector reads one position. */
  lemma {:induction false} CosineUnit(n: nat, i: nat, v: seq<real>)
    requires i < n && i < |v|
    ensures Cosine(Unit(n, i), v) == v[i]
  {
    var u := Unit(n, i);
    if i == 0 {
      CosineDisjoint(u[1..], v[1..]);
    } else {
      assert u[1..] == Unit(n - 1, i - 1);
      CosineUnit(n - 1, i - 1, v[1..]);
    }
  }

  /** Exactly the chunks with a positive inner product are ranked, each with that score. */
  lemma VectorListed(chunks: seq<Chunk>, queryEmbedding: seq<real>, c: Chunk)
    requires c in chunks
    ensures (exists h :: h in RankVector(chunks, queryEmbedding) && h.chunk == c) <==>
              Cosine(queryEmbedding, c.embedding) > 0.0
    ensures forall h :: h in RankVector(chunks, queryEmbedding) && h.chunk == c ==>
              h.vector == Cosine(queryEmbedding, c.embedding)
  {
    RankByFacts(VectorOf, VectorScorer(queryEmbedding), chunks);
    if Cosine(queryEmbedding, c.embedding) > 0.0 {
      var h := VectorScorer(queryEmbedding)(c).value;
      assert h in RankVector(chunks, queryEmbedding) && h.chunk == c;
    }
  }

  /** So a chunk that shares no position with the query is not ranked. */
  lemma UnrelatedNotRanked(chunks: seq<Chunk>, queryEmbedding: seq<real>, c: Chunk)
    requires c in chunks
    requires forall i :: 0 <= i < |queryEmbedding| && i < |c.embedding| ==>
               queryEmbedding[i] == 0.0 || c.embedding[i] == 0.0
    ensures forall h :: h in RankVector(chunks, queryEmbedding) ==> h.chunk != c
  {
    CosineDisjoint(queryEmbedding, c.embedding);
    VectorListed(chunks, queryEmbedding, c);
  }

  // The lexical score counts, in either order

  /** How often the chunk's terms occur among the tokens of the query: the same sum, term by term. */
  function Occurrences(terms: seq<string>, queryTokens: seq<string>): nat {
    if terms == [] then 0 else Count(terms[0], queryTokens) + Occurrences(terms[1..], queryTokens)
  }

  lemma CountCons(x: string, y: string, rest: seq<string>)
    ensures Count(x, [y] + rest) == (if x == y then 1 else 0) + Count(x, rest)
  {}

  lemma {:induction false} OccurrencesCons(terms: seq<string>, x: string, rest: seq<string>)
    ensures Occurrences(terms, [x] + rest) == Count(x, terms) + Occurrences(terms, rest)
  {
    if terms != [] {
      OccurrencesCons(terms[1..], x, rest);
      CountCons(terms[0], x, rest);
      CountCons(x, terms[0], terms[1..]);
      assert terms == [terms[0]] + terms[1..];
    }
  }

  lemma {:induction false} NoOccurrences(terms: seq<string>)
    ensures Occurrences(terms, []) == 0
  {
    if terms != [] {
      NoOccurrences(terms[1..]);
    }
  }

  lemma {:induction false} TokenScoreExchanged(c: Chunk, queryTokens: seq<string>)
    requires forall t :: TokenWeight(c, t) == Count(t, c.searchTerms)
    ensures TokenScore(c, queryTokens) == Occurrences(c.searchTerms, queryTokens)
  {
    if queryTokens == [] {
      NoOccurrences(c.searchTerms);
    } else {
      TokenScoreExchanged(c, queryTokens[1..]);
      OccurrencesCons(c.searchTerms, queryTokens[0], queryTokens[1..]);
      assert queryTokens == [queryTokens[0]] + queryTokens[1..];
    }
  }

  lemma {:induction false} PhraseScoreCounts(lowered: string, phrases: seq<string>)
    ensures PhraseScore(lowered, phrases) == 4 * |Filter((p: string) => Contains(lowered, p), phrases)|
  {
    if phrases != [] {
      PhraseScoreCounts(lowered, phrases[1..]);
    }
  }

  /**
   * On every chunk built from items: each matching pair of a term and a query token counts once, each phrase four
   * times.
   */
  lemma LexicalMeaning(e: Embedder, items: seq<Item>, model: string, provider: string, c: Chunk, queryText: string)
    requires c in ChunksForItems(e, items, model, provider)
    ensures LexicalScore(c, queryText)
            == Occurrences(Tokens(c.text), Tokens(queryText))
               + 4 * |Filter((p: string) => Contains(Lower(c.text), p), ImportantPhrases(queryText))|
  {
    var item :| item in items && c in ChunksOfItem(e, item, model, provider);
    forall t ensures TokenWeight(c, t) == Count(t, c.searchTerms) {
      BuiltTokenWeight(c, t);
    }
    TokenScoreExchanged(c, Tokens(queryText));
    PhraseScoreCounts(Lower(c.text), ImportantPhrases(queryText));
  }

  // What reranking gives and takes, other things equal

  /** How many of the tags are listed. */
  function Shared(tags: set<string>, listed: seq<string>): nat { |set t | t in tags && t in listed| }

  lemma OverlapShared(tags: set<string>, listed: seq<string>)
    ensures Overlap(tags, listed) == Shared(tags, listed) as real
  {
    assert tags * (set t | t in listed) == set t | t in tags && t in listed;
  }

  function Score(h: Hit, intent: Intent, terms: seq<string>, query: string): real {
    RerankHit(h, intent, terms, query).score
  }

  /** Each shared domain tag is worth 0.02, each shared market tag 0.04. */
  lemma TagGains(h: Hit, intent: Intent, terms: seq<string>, query: string, domain: seq<string>, market: seq<string>)
    ensures Score(h.(chunk := h.chunk.(domainTags := domain)), intent, terms, query) - Score(h, intent, terms, query)
            == 0.02 * (Shared(intent.tags, domain) - Shared(intent.tags, h.chunk.domainTags)) as real
    ensures Score(h.(chunk := h.chunk.(marketTags := market)), intent, terms, query) - Score(h, intent, terms, query)
            == 0.04 * (Shared(intent.tags, market) - Shared(intent.tags, h.chunk.marketTags)) as real
  {
    OverlapShared(intent.tags, domain);
    OverlapShared(intent.tags, h.chunk.domainTags);
    OverlapShared(intent.tags, market);
    OverlapShared(intent.tags, h.chunk.marketTags);
  }

  /** Low trust costs 0.03; a foreign source type costs 0.06, unless the query asks for sources. */
  lemma TrustLosses(h: Hit, intent: Intent, terms: seq<string>, query: string, trust: string, kind: string)
    requires h.chunk.trustLevel == "low" && h.chunk.sourceType in {"external_ref", "official"}
    requires trust != "low" && kind !in {"external_ref", "official"}
    ensures Score(h.(chunk := h.chunk.(trustLevel := trust)), intent, terms, query)
            == Score(h, intent, terms, query) + 0.03
    ensures Score(h.(chunk := h.chunk.(sourceType := kind)), intent, terms, query)
            == Score(h, intent, terms, query) + if AsksForSources(query) then 0.0 else 0.06
  {}

  /** The fused score counts fully, the lexical score a hundredth up to ten, the vector score not at all. */
  lemma EvidenceGains(h: Hit, intent: Intent, terms: seq<string>, query: string, rrf: real, lexical: real, vector: real)
    requires h.lexical == 0.0 && lexical >= 0.0
    ensures Score(h.(rrf := rrf), intent, terms, query) - Score(h, intent, terms, query) == rrf - h.rrf
    ensures Score(h.(lexical := lexical), intent, terms, query) - Score(h, intent, terms, query)
            == if lexical <= 10.0 then lexical / 100.0 else 0.1
    ensures Score(h.(vector := vector), intent, terms, query) == Score(h, intent, terms, query)
  {}

  /** A text with one of the expanded terms gains 0.03 over one without them. */
  lemma ExpansionGain(h: Hit, intent: Intent, terms: seq<string>, query: string, text: string, term: string)
    requires term in terms && Contains(Lower(text), Lower(term)) && Join(terms, " ") != ""
    requires forall t :: t in terms ==> !Contains(Lower(h.chunk.text), Lower(t))
    ensures Score(h.(chunk := h.chunk.(text := text)), intent, terms, query) == Score(h, intent, terms, query) + 0.03
  {
    var lowered := Map(Lower, terms);
    var i :| 0 <= i < |terms| && terms[i] == term;
    assert lowered[i] in lowered && Contains(Lower(text), lowered[i]);
    assert |Lower(Join(terms, " "))| > 0;
    forall t | t in lowered ensures !Contains(Lower(h.chunk.text), t) {
      var j :| 0 <= j < |lowered| && lowered[j] == t;
      assert terms[j] in terms;
    }
  }

  /** The risk policy gains 0.1 over other sources when the expansion names it. */
  lemma PolicyGain(h: Hit, intent: Intent, terms: seq<string>, query: string, source: string)
    requires h.chunk.sourceId == RISK_POLICY && source != RISK_POLICY
    ensures Score(h, intent, terms, query)
            == Score(h.(chunk := h.chunk.(sourceId := source)), intent, terms, query)
               + if Contains(Lower(Join(terms, " ")), "risk policy") then 0.1 else 0.0
  {}

  /** Without shared tags, bonus words, penalties and lexical evidence the score is the fused one. */
  lemma PlainScore(h: Hit, intent: Intent, query: string)
    requires Shared(intent.tags, h.chunk.domainTags) == 0 && Shared(intent.tags, h.chunk.marketTags) == 0
    requires h.chunk.sourceType !in {"external_ref", "official"} && h.chunk.trustLevel != "low" && h.lexical == 0.0
    ensures Score(h, intent, [], query) == h.rrf
  {
    OverlapShared(intent.tags, h.chunk.domainTags);
    OverlapShared(intent.tags, h.chunk.marketTags);
    assert Lower(Join([], " ")) == "";
    assert !Contains("", "risk policy");
  }

  // The orders

  /** The first different character, which is smaller in a. */
  ghost predicate DifferAt(a: string, b: string, i: nat) { i < |a| && i < |b| && a[..i] == b[..i] && a[i] < b[i] }

  /** The string order: a prefix comes first, else the first different character decides. */
  lemma {:induction false} StringLeMeaning(a: string, b: string)
    ensures StringLe(a, b) <==> a <= b || exists i: nat :: DifferAt(a, b, i)
  {
    if a != "" && b != "" {
      if a[0] == b[0] {
        StringLeMeaning(a[1..], b[1..]);
        PrefixTail(a, b);
        DifferTail(a, b);
      } else if a[0] < b[0] {
        assert DifferAt(a, b, 0);
      } else {
        assert forall i: nat :: 0 < i < |a| && i < |b| ==> a[..i][0] != b[..i][0];
      }
    }
  }

  lemma PrefixTail(a: string, b: string)
    requires a != "" && b != "" && a[0] == b[0]
    ensures a <= b <==> a[1..] <= b[1..]
  {
    if a[1..] <= b[1..] {
      assert a == [a[0]] + a[1..] && b == [b[0]] + b[1..];
    }
  }

  lemma DifferTail(a: string, b: string)
    requires a != "" && b != "" && a[0] == b[0]
    ensures (exists i: nat :: DifferAt(a, b, i)) <==> exists i: nat :: DifferAt(a[1..], b[1..], i)
  {
    if i: nat :| DifferAt(a, b, i) {
      assert i > 0 && a[1..][..i - 1] == a[..i][1..] == b[..i][1..] == b[1..][..i - 1];
      assert DifferAt(a[1..], b[1..], i - 1);
    }
    if i: nat :| DifferAt(a[1..], b[1..], i) {
      assert a[..i + 1] == [a[0]] + a[1..][..i] && b[..i + 1] == [b[0]] + b[1..][..i];
      assert DifferAt(a, b, i + 1);
    }
  }

  /** A ranking descends in its score, and ascends in the id among equal scores. */
  lemma RankingDescends(key: Hit -> real, scorer: Chunk -> Option<Hit>, chunks: seq<Chunk>, i: nat, j: nat)
    requires forall c :: scorer(c).Some? ==> scorer(c).value.chunk == c
    requires i < j < |RankBy(key, scorer, chunks)|
    ensures var r := RankBy(key, scorer, chunks);
            key(r[i]) > key(r[j]) || (key(r[i]) == key(r[j]) && StringLe(r[i].chunk.chunkId, r[j].chunk.chunkId))
  {
    RankByFacts(key, scorer, chunks);
    var r := RankBy(key, scorer, chunks);
    assert BestFirst(key, r[i], r[j]);
  }
}
