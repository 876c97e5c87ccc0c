/** The tables that the knowledge index derives from its items: sources, chunks and the inverted index. */
module DerivedData {
  import opened Seqs
  import opened Sorting
  import opened Text
  import opened Ranking
  import Chunker

  /** The digest of the content is modelled by the content itself. */
  datatype Item = Item(
    id: string, itemType: string, title: string, content: string,
    domainTags: seq<string>, marketTags: seq<string>, platformTags: seq<string>,
    trustLevel: string, sourceType: string, sourceUri: string, status: string, stages: seq<string>)

  datatype Source = Source(id: string, sourceType: string, trustLevel: string, uri: string, content: string)

  function ItemId(item: Item): string { item.id }

  function SourceId(source: Source): string { source.id }

  /** _source_from_item */
  function SourceFromItem(item: Item): Source {
    Source(item.id, item.sourceType, item.trustLevel, item.sourceUri, item.content)
  }

  // Embeddings

  const LOCAL := "local"
  const LOCAL_DIMENSION := 64

  /**
   * What the embedding code takes from outside: the digest that assigns a bucket to "model:token", the
   * normalisation of the bucket counts, and the remote providers.
   */
  datatype Embedder = Embedder(bucket: string -> nat, normalise: seq<nat> -> seq<real>,
                               remote: (string, string, string) -> seq<real>)

  /** How many tokens fall into each of the buckets. */
  function BucketCounts(e: Embedder, model: string, tokens: seq<string>): (r: seq<nat>)
    ensures |r| == LOCAL_DIMENSION
  {
    if tokens == [] then seq(LOCAL_DIMENSION, _ => 0)
    else
      var before := BucketCounts(e, model, tokens[..|tokens| - 1]);
      var b := e.bucket(model + ":" + tokens[|tokens| - 1]) % LOCAL_DIMENSION;
      before[b := before[b] + 1]
  }

  /** _embed */
  function Embed(e: Embedder, text: string, model: string, provider: string): seq<real> {
    if provider == LOCAL then e.normalise(BucketCounts(e, model, Tokens(text)))
    else e.remote(text, model, provider)
  }

  /** Bucket b counts the tokens that the digest sends to it, in any order. */
  lemma {:induction false} BucketCountAt(e: Embedder, model: string, tokens: seq<string>, b: nat)
    requires b < LOCAL_DIMENSION
    ensures BucketCounts(e, model, tokens)[b]
            == |Filter((t: string) => e.bucket(model + ":" + t) % LOCAL_DIMENSION == b, tokens)|
  {
    if tokens != [] {
      var init, last := tokens[..|tokens| - 1], tokens[|tokens| - 1];
      BucketCountAt(e, model, init, b);
      assert tokens == init + [last];
      FilterSnoc((t: string) => e.bucket(model + ":" + t) % LOCAL_DIMENSION == b, init, last);
    }
  }

  /** The counting loop of _embed. */
  method CountBuckets(e: Embedder, model: string, tokens: seq<string>) returns (vector: array<nat>)
    ensures fresh(vector) && vector[..] == BucketCounts(e, model, tokens)
  {
    vector := new nat[LOCAL_DIMENSION](_ => 0);
    assert vector[..] == seq(LOCAL_DIMENSION, _ => 0);
    for i := 0 to |tokens|
      invariant vector.Length == LOCAL_DIMENSION && vector[..] == BucketCounts(e, model, tokens[..i])
    {
      assert tokens[..i + 1][..i] == tokens[..i];
      var b := e.bucket(model + ":" + tokens[i]) % LOCAL_DIMENSION;
      vector[b] := vector[b] + 1;
    }
    assert tokens[..|tokens|] == tokens;
  }

  // Chunks

  function StagesForItem(item: Item): seq<string> {
    if item.stages != [] then Sort(StringLe, Dedupe(item.stages))
    else if item.itemType == "source_ref" then ["balanced_review", "strategy_reasoning"]
    else
      ["balanced_review"]
      + (if "pine" in item.domainTags || "pine_v6" in item.platformTags then ["pine_code_generation"] else [])
      + ["repair", "strategy_coding", "strategy_reasoning"]
  }

  /** An item serves its own stages, else those of its type, with code generation for Pine items. */
  lemma StageIff(item: Item, stage: string)
    ensures item.stages != [] ==>
              (stage in StagesForItem(item) <==> stage != "" && exists s :: s in item.stages && stage == Strip(s))
    ensures item.stages == [] ==>
              (stage in StagesForItem(item)
               <==> || stage == "strategy_reasoning" || stage == "balanced_review"
                    || (item.itemType != "source_ref" && (stage == "strategy_coding" || stage == "repair"))
                    || (item.itemType != "source_ref" && stage == "pine_code_generation"
                        && ("pine" in item.domainTags || "pine_v6" in item.platformTags)))
  {}

  /** _token_frequencies */
  function TokenFrequencies(text: string): map<string, nat> {
    map t | t in Tokens(text) :: Count(t, Tokens(text))
  }

  /** The counting loop of _token_frequencies. */
  method CountTokens(text: string) returns (counts: map<string, nat>)
    ensures counts == TokenFrequencies(text)
  {
    var tokens := Tokens(text);
    counts := map[];
    for i := 0 to |tokens|
      invariant counts == map t | t in tokens[..i] :: Count(t, tokens[..i])
    {
      assert tokens[..i + 1] == tokens[..i] + [tokens[i]];
      var before := if tokens[i] in counts then counts[tokens[i]] else 0;
      assert before == Count(tokens[i], tokens[..i]);
      counts := counts[tokens[i] := before + 1];
    }
    assert tokens[..|tokens|] == tokens;
  }

  function MakeChunk(e: Embedder, item: Item, section: Chunker.Section, index: nat, model: string, provider: string)
    : Chunk
  {
    Chunk(Chunker.ChunkId(item.id, section, index), item.id, item.id, index,
          item.itemType, item.title, section.text, section.sectionTitle, section.parentTitle, section.kind,
          item.domainTags, item.marketTags, item.platformTags,
          item.trustLevel, item.sourceType, item.sourceUri, item.status, StagesForItem(item),
          provider, model, Embed(e, section.text, model, provider),
          Tokens(section.text), TokenFrequencies(section.text))
  }

  function ChunksOfItem(e: Embedder, item: Item, model: string, provider: string): (r: seq<Chunk>)
    ensures |r| == |Chunker.ChunkText(item.content)|
    ensures forall i :: 0 <= i < |r| ==>
              r[i] == MakeChunk(e, item, Chunker.ChunkText(item.content)[i], i, model, provider)
  {
    var sections := Chunker.ChunkText(item.content);
    seq(|sections|, i requires 0 <= i < |sections| => MakeChunk(e, item, sections[i], i, model, provider))
  }

  /** _chunks_for_items */
  function ChunksForItems(e: Embedder, items: seq<Item>, model: string, provider: string): (r: seq<Chunk>)
    ensures forall c :: c in r ==> exists item :: item in items && c in ChunksOfItem(e, item, model, provider)
  {
    if items == [] then []
    else ChunksOfItem(e, items[0], model, provider) + ChunksForItems(e, items[1..], model, provider)
  }

  lemma {:induction false} ItemChunks(e: Embedder, items: seq<Item>, item: Item, model: string, provider: string)
    requires item in items
    ensures forall c :: c in ChunksOfItem(e, item, model, provider) ==> c in ChunksForItems(e, items, model, provider)
  {
    if items[0] != item {
      ItemChunks(e, items[1..], item, model, provider);
    }
  }

  lemma SectionsOfContent(content: string)
    ensures var groups := Chunker.Groups(Chunker.Parts(content), 1200, 120);
            Chunker.ChunkText(content) == Chunker.Sections(groups, 1200) && |Chunker.ChunkText(content)| == |groups|
  {}

  lemma SameChunkId(e: Embedder, a: Item, b: Item, i: nat, j: nat, model: string, provider: string)
    requires i < |ChunksOfItem(e, a, model, provider)| && j < |ChunksOfItem(e, b, model, provider)|
    requires ChunksOfItem(e, a, model, provider)[i].chunkId == ChunksOfItem(e, b, model, provider)[j].chunkId
    ensures a.id == b.id && i == j
  {
    var ga, gb :=
        Chunker.Groups(Chunker.Parts(a.content), 1200, 120), Chunker.Groups(Chunker.Parts(b.content), 1200, 120);
    SectionsOfContent(a.content);
    SectionsOfContent(b.content);
    Chunker.ChunkIdsDistinct(a.id, ga, i, b.id, gb, j, 1200);
  }

  lemma ItemChunkIds(e: Embedder, item: Item, model: string, provider: string)
    ensures DistinctChunkIds(ChunksOfItem(e, item, model, provider))
  {
    var first := ChunksOfItem(e, item, model, provider);
    forall i, j | 0 <= i < j < |first| ensures first[i].chunkId != first[j].chunkId {
      if first[i].chunkId == first[j].chunkId {
        SameChunkId(e, item, item, i, j, model, provider);
      }
    }
  }

  lemma OtherItemChunkIds(e: Embedder, item: Item, items: seq<Item>, model: string, provider: string, a: Chunk,
                          b: Chunk)
    requires forall other :: other in items ==> other.id != item.id
    requires a in ChunksOfItem(e, item, model, provider) && b in ChunksForItems(e, items, model, provider)
    ensures a.chunkId != b.chunkId
  {
    if a.chunkId == b.chunkId {
      var other :| other in items && b in ChunksOfItem(e, other, model, provider);
      var i :| 0 <= i < |ChunksOfItem(e, item, model, provider)| && ChunksOfItem(e, item, model, provider)[i] == a;
      var j :| 0 <= j < |ChunksOfItem(e, other, model, provider)| && ChunksOfItem(e, other, model, provider)[j] == b;
      SameChunkId(e, item, other, i, j, model, provider);
    }
  }

  lemma AppendDistinctIds(a: seq<Chunk>, b: seq<Chunk>)
    requires DistinctChunkIds(a) && DistinctChunkIds(b)
    requires forall x, y :: x in a && y in b ==> x.chunkId != y.chunkId
    ensures DistinctChunkIds(a + b)
  {
    var x, y := Map(IdOf, a), Map(IdOf, b);
    forall k | k in x ensures k !in y {
      var i :| 0 <= i < |x| && x[i] == k;
      assert a[i] in a;
      forall j | 0 <= j < |y| ensures y[j] != k {
        assert b[j] in b;
      }
    }
    DistinctAppend(x, y);
    assert Map(IdOf, a + b) == x + y;
  }

  /** Items with distinct ids yield chunks with distinct ids. */
  lemma {:induction false} ChunkIdsDistinct(e: Embedder, items: seq<Item>, model: string, provider: string)
    requires Distinct(Map(ItemId, items))
    ensures DistinctChunkIds(ChunksForItems(e, items, model, provider))
  {
    if items != [] {
      var first, rest := ChunksOfItem(e, items[0], model, provider), ChunksForItems(e, items[1..], model, provider);
      FirstKeyUnique(ItemId, items);
      ItemChunkIds(e, items[0], model, provider);
      ChunkIdsDistinct(e, items[1..], model, provider);
      forall a, b | a in first && b in rest ensures a.chunkId != b.chunkId {
        OtherItemChunkIds(e, items[0], items[1..], model, provider, a, b);
      }
      AppendDistinctIds(first, rest);
    }
  }

  /** On built chunks the stored frequencies give every token the weight that counting gives it. */
  lemma BuiltTokenWeight(c: Chunk, token: string)
    requires c.searchTerms == Tokens(c.text) && c.tokenFrequencies == TokenFrequencies(c.text)
    ensures TokenWeight(c, token) == Count(token, c.searchTerms)
  {
    assert token in c.searchTerms <==> token in multiset(c.searchTerms);
  }

  function CountingScore(c: Chunk, queryTokens: seq<string>): nat {
    if queryTokens == [] then 0 else Count(queryTokens[0], c.searchTerms) + CountingScore(c, queryTokens[1..])
  }

  lemma {:induction false} FastPathIsCounting(c: Chunk, queryTokens: seq<string>)
    requires c.searchTerms == Tokens(c.text) && c.tokenFrequencies == TokenFrequencies(c.text)
    ensures TokenScore(c, queryTokens) == CountingScore(c, queryTokens)
  {
    if queryTokens != [] {
      BuiltTokenWeight(c, queryTokens[0]);
      FastPathIsCounting(c, queryTokens[1..]);
    }
  }

  /** The token-frequency fast path of lexical ranking equals counting, on every chunk built from items. */
  lemma FastPathOnIndex(e: Embedder, items: seq<Item>, model: string, provider: string, c: Chunk,
                        queryTokens: seq<string>)
    requires c in ChunksForItems(e, items, model, provider)
    ensures TokenScore(c, queryTokens) == CountingScore(c, queryTokens)
  {
    var item :| item in items && c in ChunksOfItem(e, item, model, provider);
    FastPathIsCounting(c, queryTokens);
  }

  // The inverted index

  datatype RetrievalIndex = RetrievalIndex(
    documentFrequency: map<string, nat>, sourceMap: map<string, seq<string>>, tagMap: map<string, seq<string>>)

  function SearchTermSet(c: Chunk): set<string> { set t | t in c.searchTerms }

  function BySource(c: Chunk): seq<string> { [c.sourceId] }

  function ByTag(c: Chunk): seq<string> { c.domainTags + c.marketTags + c.platformTags }

  function AddOne(counts: map<string, nat>, token: string): map<string, nat> {
    counts[token := (if token in counts then counts[token] else 0) + 1]
  }

  /** `index.setdefault(key, []).append(id)` */
  function AddId(index: map<string, seq<string>>, key: string, id: string): map<string, seq<string>> {
    index[key := (if key in index then index[key] else []) + [id]]
  }

  function AddIds(index: map<string, seq<string>>, keys: seq<string>, id: string): map<string, seq<string>> {
    if keys == [] then index else AddId(AddIds(index, keys[..|keys| - 1], id), keys[|keys| - 1], id)
  }

  /** The ids of the chunks that list `key`, once per listing, in chunk order. */
  function Listing(chunks: seq<Chunk>, keysOf: Chunk -> seq<string>): map<string, seq<string>> {
    if chunks == [] then map[]
    else
      var last := chunks[|chunks| - 1];
      AddIds(Listing(chunks[..|chunks| - 1], keysOf), keysOf(last), last.chunkId)
  }

  /** The number of chunks that hold the token. */
  function Documents(chunks: seq<Chunk>, t: string): nat { |Filter((c: Chunk) => t in c.searchTerms, chunks)| }

  /** In how many chunks each token occurs: a direct scan. */
  function DocumentFrequency(chunks: seq<Chunk>): map<string, nat> {
    map t | t in AllTerms(chunks) :: Documents(chunks, t)
  }

  function AllTerms(chunks: seq<Chunk>): set<string> {
    set c, t | c in chunks && t in SearchTermSet(c) :: t
  }

  function SortAll(index: map<string, seq<string>>): map<string, seq<string>> {
    map k | k in index :: Sort(StringLe, index[k])
  }

  function SortUniqueAll(index: map<string, seq<string>>): map<string, seq<string>> {
    map k | k in index :: Sort(StringLe, Unique(index[k]))
  }

  /** _retrieval_index_payload */
  function RetrievalPayload(chunks: seq<Chunk>): RetrievalIndex {
    RetrievalIndex(DocumentFrequency(chunks), SortAll(Listing(chunks, BySource)), SortUniqueAll(Listing(chunks, ByTag)))
  }

  lemma FilterCountSnoc(chunks: seq<Chunk>, c: Chunk, t: string)
    ensures Documents(chunks + [c], t)
            == Documents(chunks, t) + if t in c.searchTerms then 1 else 0
  {
    FilterSnoc((d: Chunk) => t in d.searchTerms, chunks, c);
  }

  lemma NoDocument(chunks: seq<Chunk>, t: string)
    requires t !in AllTerms(chunks)
    ensures Documents(chunks, t) == 0
  {
    assert forall d :: d in chunks && t in SearchTermSet(d) ==> t in AllTerms(chunks);
    forall d | d in chunks ensures t !in d.searchTerms {
      assert t !in SearchTermSet(d);
    }
    FilterNone((d: Chunk) => t in d.searchTerms, chunks);
  }

  /** One chunk more: its distinct tokens count once more. */
  lemma DocumentFrequencySnoc(chunks: seq<Chunk>, c: Chunk, counts: map<string, nat>)
    requires counts.Keys == AllTerms(chunks) + SearchTermSet(c)
    requires forall t :: t in counts ==>
                           counts[t] == (if t in AllTerms(chunks) then DocumentFrequency(chunks)[t] else 0)
                                        + (if t in SearchTermSet(c) then 1 else 0)
    ensures counts == DocumentFrequency(chunks + [c])
  {
    AllTermsSnoc(chunks, c);
    forall t | t in counts ensures counts[t] == Documents(chunks + [c], t) {
      FilterCountSnoc(chunks, c, t);
      if t !in AllTerms(chunks) {
        NoDocument(chunks, t);
      }
    }
  }

  lemma AllTermsSnoc(chunks: seq<Chunk>, c: Chunk)
    ensures AllTerms(chunks + [c]) == AllTerms(chunks) + SearchTermSet(c)
  {
    assert forall d :: d in chunks + [c] <==> d in chunks || d == c;
  }

  /** The loop over set(search_terms) of one chunk. */
  method CountDocument(c: Chunk, before: map<string, nat>, ghost chunks: seq<Chunk>) returns (counts: map<string, nat>)
    requires before == DocumentFrequency(chunks)
    ensures counts == DocumentFrequency(chunks + [c])
  {
    counts := before;
    var left := SearchTermSet(c);
    while left != {}
      invariant left <= SearchTermSet(c)
      invariant counts.Keys == before.Keys + (SearchTermSet(c) - left)
      invariant forall t :: t in counts ==>
                              counts[t] == (if t in before then before[t] else 0)
                                           + (if t in SearchTermSet(c) - left then 1 else 0)
      decreases left
    {
      var t :| t in left;
      counts := AddOne(counts, t);
      left := left - {t};
    }
    DocumentFrequencySnoc(chunks, c, counts);
  }

  lemma AddOneId(index: map<string, seq<string>>, key: string, id: string)
    ensures AddIds(index, [key], id) == AddId(index, key, id)
  {
    assert [key][..0] == [];
    assert AddIds(index, [], id) == index;
  }

  lemma ListingSnoc(chunks: seq<Chunk>, i: nat, keysOf: Chunk -> seq<string>)
    requires i < |chunks|
    ensures chunks[..i + 1] == chunks[..i] + [chunks[i]]
    ensures Listing(chunks[..i + 1], keysOf)
            == AddIds(Listing(chunks[..i], keysOf), keysOf(chunks[i]), chunks[i].chunkId)
  {
    assert chunks[..i + 1][..i] == chunks[..i];
  }

  /** The loop over the tags of one chunk. */
  method AddTags(before: map<string, seq<string>>, keys: seq<string>, id: string)
    returns (tags: map<string, seq<string>>)
    ensures tags == AddIds(before, keys, id)
  {
    tags := before;
    for j := 0 to |keys|
      invariant tags == AddIds(before, keys[..j], id)
    {
      assert keys[..j + 1][..j] == keys[..j];
      tags := AddId(tags, keys[j], id);
    }
    assert keys[..|keys|] == keys;
  }

  /** _retrieval_index_payload, as its loops build it. */
  method RetrievalIndexPayload(chunks: seq<Chunk>) returns (r: RetrievalIndex)
    ensures r == RetrievalPayload(chunks)
  {
    var counts: map<string, nat>, sources: map<string, seq<string>>, tags: map<string, seq<string>> :=
        map[], map[], map[];
    for i := 0 to |chunks|
      invariant counts == DocumentFrequency(chunks[..i])
      invariant sources == Listing(chunks[..i], BySource) && tags == Listing(chunks[..i], ByTag)
    {
      var c := chunks[i];
      ListingSnoc(chunks, i, BySource);
      ListingSnoc(chunks, i, ByTag);
      AddOneId(sources, c.sourceId, c.chunkId);
      sources := AddId(sources, c.sourceId, c.chunkId);
      counts := CountDocument(c, counts, chunks[..i]);
      tags := AddTags(tags, ByTag(c), c.chunkId);
    }
    assert chunks[..|chunks|] == chunks;
    r := RetrievalIndex(counts, SortAll(sources), SortUniqueAll(tags));
  }

  // The inverted index agrees with a direct scan

  predicate Lists(c: Chunk, keysOf: Chunk -> seq<string>, key: string) { key in keysOf(c) }

  lemma {:induction false} AddIdsMembers(index: map<string, seq<string>>, keys: seq<string>, id: string)
    ensures AddIds(index, keys, id).Keys == index.Keys + (set k | k in keys)
    ensures forall k, x :: k in AddIds(index, keys, id) ==>
                             (x in AddIds(index, keys, id)[k]
                              <==> (k in index && x in index[k]) || (x == id && k in keys))
  {
    if keys != [] {
      AddIdsMembers(index, keys[..|keys| - 1], id);
      assert keys == keys[..|keys| - 1] + [keys[|keys| - 1]];
    }
  }

  /** A key is listed exactly when some chunk lists it, and under it stand exactly the ids of those chunks. */
  lemma {:induction false} ListingScan(chunks: seq<Chunk>, keysOf: Chunk -> seq<string>)
    ensures forall k :: k in Listing(chunks, keysOf) <==> exists c :: c in chunks && Lists(c, keysOf, k)
    ensures forall k, x :: k in Listing(chunks, keysOf) ==>
                             (x in Listing(chunks, keysOf)[k]
                              <==> exists c :: c in chunks && c.chunkId == x && Lists(c, keysOf, k))
  {
    if chunks != [] {
      var init, last := chunks[..|chunks| - 1], chunks[|chunks| - 1];
      ListingScan(init, keysOf);
      AddIdsMembers(Listing(init, keysOf), keysOf(last), last.chunkId);
      assert chunks == init + [last];
      assert forall c :: c in chunks <==> c in init || c == last;
      forall k, x | k in Listing(chunks, keysOf)
        ensures x in Listing(chunks, keysOf)[k] <==> exists c :: c in chunks && c.chunkId == x && Lists(c, keysOf, k)
      {
        assert last.chunkId == x && k in keysOf(last) ==> Lists(last, keysOf, k);
      }
      forall k ensures k in Listing(chunks, keysOf) <==> exists c :: c in chunks && Lists(c, keysOf, k) {
        assert k in keysOf(last) ==> Lists(last, keysOf, k);
      }
    }
  }

  /** Document frequencies are what a scan of the chunks gives. */
  lemma DocumentFrequencyScan(chunks: seq<Chunk>)
    ensures var f := RetrievalPayload(chunks).documentFrequency;
            && (forall t :: t in f <==> exists c :: c in chunks && t in c.searchTerms)
            && (forall t :: t in f ==> f[t] == Documents(chunks, t) > 0)
  {
    assert forall c, t :: c in chunks ==> (t in c.searchTerms <==> t in SearchTermSet(c));
    forall t | t in AllTerms(chunks) ensures Documents(chunks, t) > 0 {
      var c :| c in chunks && t in c.searchTerms;
      assert c in Filter((c: Chunk) => t in c.searchTerms, chunks);
    }
  }

  /** For each source, the sorted ids of exactly its chunks. */
  lemma SourceMapScan(chunks: seq<Chunk>)
    ensures var m := RetrievalPayload(chunks).sourceMap;
            && (forall s :: s in m <==> exists c :: c in chunks && c.sourceId == s)
            && (forall s, x :: s in m ==> (x in m[s] <==> exists c :: c in chunks && c.chunkId == x && c.sourceId == s))
            && (forall s :: s in m ==> SortedBy(StringLe, m[s]))
  {
    ListingScan(chunks, BySource);
    assert forall c, s :: Lists(c, BySource, s) <==> c.sourceId == s;
    SortAllFacts(Listing(chunks, BySource));
  }

  lemma SortAllFacts(index: map<string, seq<string>>)
    ensures SortAll(index).Keys == index.Keys
    ensures forall s, x :: s in index ==> (x in SortAll(index)[s] <==> x in index[s])
    ensures forall s :: s in index ==> SortedBy(StringLe, SortAll(index)[s])
  {
    StringLeOrder();
    forall s | s in index ensures SortedBy(StringLe, SortAll(index)[s]) {
      SortSorted(StringLe, index[s]);
    }
  }

  /** For each tag, the sorted distinct ids of exactly the chunks that carry it. */
  lemma TagMapScan(chunks: seq<Chunk>)
    ensures var m := RetrievalPayload(chunks).tagMap;
            && (forall g :: g in m <==> exists c :: c in chunks && g in ByTag(c))
            && (forall g, x :: g in m ==> (x in m[g] <==> exists c :: c in chunks && c.chunkId == x && g in ByTag(c)))
            && (forall g :: g in m ==> SortedBy(StringLe, m[g]) && Distinct(m[g]))
  {
    ListingScan(chunks, ByTag);
    assert forall c, g :: Lists(c, ByTag, g) <==> g in ByTag(c);
    SortUniqueAllFacts(Listing(chunks, ByTag));
  }

  lemma SortUniqueAllFacts(index: map<string, seq<string>>)
    ensures SortUniqueAll(index).Keys == index.Keys
    ensures forall s, x :: s in index ==> (x in SortUniqueAll(index)[s] <==> x in index[s])
    ensures forall s :: s in index ==> SortedBy(StringLe, SortUniqueAll(index)[s]) && Distinct(SortUniqueAll(index)[s])
  {
    StringLeOrder();
    forall s | s in index ensures SortedBy(StringLe, SortUniqueAll(index)[s]) && Distinct(SortUniqueAll(index)[s]) {
      SortSorted(StringLe, Unique(index[s]));
      DistinctPerm(Unique(index[s]), Sort(StringLe, Unique(index[s])));
    }
  }
}
