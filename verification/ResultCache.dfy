/** What the result cache answers in every run: the request that filed the entry, on the index it was filed on. */
module ResultCache {
  import opened Text
  import opened QuerySignals
  import opened CacheKeys
  import opened DerivedData
  import opened Retrieval
  import opened IndexMachine
  import opened IndexRuns

  // What a run remembers

  /** The request that filed an entry, and the index right after it. */
  datatype Filed = Filed(index: Index, query: string, stage: string, options: RetrievalOptions)

  /** Since the last reset: the filing of each key, and the keys that were filed before the latest ingest. */
  datatype Memory = Memory(filed: map<string, Filed>, outdated: set<string>)

  const NOTHING_FILED := Memory(map[], {})

  function Remember(e: Embedder, ix: Index, m: Memory, c: Command): Memory {
    match c
    case DoSearch(q, s, o) =>
      var key := ResultKeyOf(ix, q, s, o);
      if key in m.filed then m else m.(filed := m.filed[key := Filed(Search(e, ix, q, s, o).0, q, s, o)])
    case DoIngest(_, _) => m.(outdated := m.filed.Keys)
    case _ => NOTHING_FILED
  }

  function RememberAll(e: Embedder, ix: Index, m: Memory, cs: seq<Command>): Memory
    decreases |cs|
  {
    if cs == [] then m else RememberAll(e, Apply(e, ix, cs[0]).0, Remember(e, ix, m, cs[0]), cs[1..])
  }

  /** The answer that a filing stands for, and whether it stands under its own key, with its query embedded. */
  datatype Meaning = Meaning(answer: Filed -> SearchResult, proper: (string, Filed) -> bool)

  function MeaningOf(e: Embedder): Meaning {
    Meaning((f: Filed) => Recompute(e, f.index, f.query, f.stage, f.options),
            (key: string, f: Filed) =>
              key == ResultKeyOf(f.index, f.query, f.stage, f.options)
              && EmbeddingKeyOf(f.index, f.query, f.stage) in f.index.embeddings)
  }

  /** The same chunks under the same embedding, with at least the same cached embeddings. */
  ghost predicate SameContent(was: Index, now: Index) {
    && was.chunks == now.chunks && was.config == now.config
    && forall k :: k in was.embeddings ==> k in now.embeddings && now.embeddings[k] == was.embeddings[k]
  }

  /** An entry holds the answer of its filing; one that is not outdated was filed on the present content. */
  ghost predicate Faithful(mean: Meaning, ix: Index, m: Memory, key: string)
    requires key in m.filed && key in ix.results
  {
    var f := m.filed[key];
    && f.index.version == ix.version && f.index.registry == ix.registry
    && mean.proper(key, f) && ix.results[key].result == mean.answer(f)
    && (key in m.outdated || SameContent(f.index, ix))
  }

  ghost function Unfaithful(mean: Meaning, ix: Index, m: Memory): set<string> {
    set key | key in ix.results && key in m.filed && !Faithful(mean, ix, m, key)
  }

  ghost predicate Remembers(mean: Meaning, ix: Index, m: Memory) {
    m.filed.Keys == ix.results.Keys && m.outdated <= m.filed.Keys && Unfaithful(mean, ix, m) == {}
  }

  lemma EntryFaithful(mean: Meaning, ix: Index, m: Memory, key: string)
    requires Remembers(mean, ix, m) && key in m.filed
    ensures key in ix.results && Faithful(mean, ix, m, key)
  {
    assert key in ix.results;
    assert key !in Unfaithful(mean, ix, m);
  }

  lemma AllFaithful(mean: Meaning, ix: Index, m: Memory)
    requires m.filed.Keys == ix.results.Keys && m.outdated <= m.filed.Keys
    requires forall key :: key in m.filed ==> key in ix.results && Faithful(mean, ix, m, key)
    ensures Remembers(mean, ix, m)
  {}

  // Every command keeps the memory

  lemma SameContentTransitive(a: Index, b: Index, c: Index)
    requires SameContent(a, b) && SameContent(b, c)
    ensures SameContent(a, c)
  {}

  /** An entry stays faithful when its filing stays and the content does. */
  lemma FaithfulKept(mean: Meaning, ix: Index, now: Index, m: Memory, after: Memory, key: string)
    requires key in m.filed && key in ix.results && Faithful(mean, ix, m, key) && SameContent(ix, now)
    requires now.version == ix.version && now.registry == ix.registry
    requires key in now.results && now.results[key] == ix.results[key]
    requires key in after.filed && after.filed[key] == m.filed[key] && after.outdated == m.outdated
    ensures Faithful(mean, now, after, key)
  {
    if key !in m.outdated {
      SameContentTransitive(m.filed[key].index, ix, now);
    }
  }

  /** What a miss does to the index. */
  lemma MissEffect(e: Embedder, ix: Index, query: string, stage: string, options: RetrievalOptions)
    requires ResultKeyOf(ix, query, stage, options) !in ix.results
    ensures var now, key := Search(e, ix, query, stage, options).0, ResultKeyOf(ix, query, stage, options);
            && now.version == ix.version && now.registry == ix.registry && SameContent(ix, now)
            && now.results
               == ix.results[key := CachedResult(query, stage, options, Recompute(e, ix, query, stage, options))]
            && EmbeddingKeyOf(now, query, stage) in now.embeddings
            && Recompute(e, now, query, stage, options) == Recompute(e, ix, query, stage, options)
  {}

  /** The filing of a new entry on an index that holds it. */
  ghost predicate Files(mean: Meaning, now: Index, key: string, f: Filed) {
    && f.index == now && mean.proper(key, f)
    && key in now.results && now.results[key].result == mean.answer(f)
  }

  lemma FiledFaithful(mean: Meaning, now: Index, after: Memory, key: string)
    requires key in after.filed && Files(mean, now, key, after.filed[key])
    ensures Faithful(mean, now, after, key)
  {}

  lemma FiledRemembers(mean: Meaning, ix: Index, now: Index, m: Memory, key: string, f: Filed)
    requires Remembers(mean, ix, m) && key !in ix.results && SameContent(ix, now)
    requires now.version == ix.version && now.registry == ix.registry && Files(mean, now, key, f)
    requires now.results == ix.results[key := now.results[key]]
    ensures Remembers(mean, now, m.(filed := m.filed[key := f]))
  {
    var after := m.(filed := m.filed[key := f]);
    FiledFaithful(mean, now, after, key);
    forall k | k in m.filed ensures k in now.results && Faithful(mean, now, after, k) {
      EntryFaithful(mean, ix, m, k);
      FaithfulKept(mean, ix, now, m, after, k);
    }
    assert after.filed.Keys == m.filed.Keys + {key};
    AllFaithful(mean, now, after);
  }

  lemma SearchRemembers(e: Embedder, ix: Index, m: Memory, query: string, stage: string, options: RetrievalOptions)
    requires Remembers(MeaningOf(e), ix, m)
    ensures Remembers(MeaningOf(e), Search(e, ix, query, stage, options).0,
                      Remember(e, ix, m, DoSearch(query, stage, options)))
  {
    var key := ResultKeyOf(ix, query, stage, options);
    if key !in ix.results {
      var now := Search(e, ix, query, stage, options).0;
      MissEffect(e, ix, query, stage, options);
      FiledRemembers(MeaningOf(e), ix, now, m, key, Filed(now, query, stage, options));
    }
  }

  lemma OutdatedRemembers(mean: Meaning, ix: Index, now: Index, m: Memory)
    requires Remembers(mean, ix, m)
    requires now.version == ix.version && now.registry == ix.registry && now.results == ix.results
    ensures Remembers(mean, now, m.(outdated := m.filed.Keys))
  {
    var after := m.(outdated := m.filed.Keys);
    forall k | k in after.filed ensures k in now.results && Faithful(mean, now, after, k) {
      EntryFaithful(mean, ix, m, k);
      FaithfulOutdated(mean, ix, now, m, after, k);
    }
    AllFaithful(mean, now, after);
  }

  lemma IngestKeepsResults(e: Embedder, ix: Index, item: Item, config: Config)
    ensures var now := Ingest(e, ix, item, config);
            now.results == ix.results && now.version == ix.version && now.registry == ix.registry
  {}

  lemma IngestRemembers(e: Embedder, ix: Index, m: Memory, item: Item, config: Config)
    requires Remembers(MeaningOf(e), ix, m)
    ensures Remembers(MeaningOf(e), Ingest(e, ix, item, config), Remember(e, ix, m, DoIngest(item, config)))
  {
    IngestKeepsResults(e, ix, item, config);
    OutdatedRemembers(MeaningOf(e), ix, Ingest(e, ix, item, config), m);
  }

  lemma FaithfulOutdated(mean: Meaning, ix: Index, now: Index, m: Memory, after: Memory, key: string)
    requires key in m.filed && key in ix.results && Faithful(mean, ix, m, key)
    requires now.version == ix.version && now.registry == ix.registry && now.results == ix.results
    requires after.filed == m.filed && key in after.outdated
    ensures Faithful(mean, now, after, key)
  {}

  lemma ResetRemembers(e: Embedder, ix: Index, items: seq<Item>)
    ensures Remembers(MeaningOf(e), WriteApproved(e, ix, items), NOTHING_FILED)
  {}

  lemma ApplyRemembers(e: Embedder, ix: Index, m: Memory, c: Command)
    ensures Remembers(MeaningOf(e), ix, m) ==> Remembers(MeaningOf(e), Apply(e, ix, c).0, Remember(e, ix, m, c))
  {
    if Remembers(MeaningOf(e), ix, m) {
      match c
      case DoSearch(q, s, o) => SearchRemembers(e, ix, m, q, s, o);
      case DoApproveCandidate(item) => ResetRemembers(e, ix, [item]);
      case DoApproveSummary(item) => ResetRemembers(e, ix, [item]);
      case DoWriteApproved(items) => ResetRemembers(e, ix, items);
      case DoIngest(item, config) => IngestRemembers(e, ix, m, item, config);
    }
  }

  /** Every run, of whatever commands and requests, keeps the memory. */
  lemma {:induction false} RunRemembers(e: Embedder, ix: Index, m: Memory, cs: seq<Command>)
    ensures Remembers(MeaningOf(e), ix, m) ==> Remembers(MeaningOf(e), Run(e, ix, cs).0, RememberAll(e, ix, m, cs))
    decreases |cs|
  {
    if cs != [] {
      ApplyRemembers(e, ix, m, cs[0]);
      RunRemembers(e, Apply(e, ix, cs[0]).0, Remember(e, ix, m, cs[0]), cs[1..]);
    }
  }

  // What a search answers

  /** A hit returns the answer of the request that filed its key, on the index it was filed on; a miss recomputes. */
  lemma Served(e: Embedder, ix: Index, m: Memory, query: string, stage: string, options: RetrievalOptions)
    requires Remembers(MeaningOf(e), ix, m)
    ensures var key := ResultKeyOf(ix, query, stage, options);
            Search(e, ix, query, stage, options).1
            == if key in m.filed then MeaningOf(e).answer(m.filed[key]) else Recompute(e, ix, query, stage, options)
  {
    var key := ResultKeyOf(ix, query, stage, options);
    if key in m.filed {
      EntryFaithful(MeaningOf(e), ix, m, key);
    }
  }

  /** Requests whose answers cannot differ: the signals, the words, the stage and the options agree. */
  predicate Alike(q1: string, s1: string, o1: RetrievalOptions, q2: string, s2: string, o2: RetrievalOptions) {
    s1 == s2 && o1 == o2 && Normalize(QueryText(q1)) == Normalize(QueryText(q2)) && SameSignals(q1, q2)
  }

  /** Alike requests are answered alike once one of them is embedded. */
  lemma AlikeAnswered(e: Embedder, ix: Index, q1: string, q2: string, stage: string, options: RetrievalOptions)
    requires Alike(q1, stage, options, q2, stage, options) && EmbeddingKeyOf(ix, q1, stage) in ix.embeddings
    ensures Recompute(e, ix, q1, stage, options) == Recompute(e, ix, q2, stage, options)
    ensures EmbeddingKeyOf(ix, q1, stage) == EmbeddingKeyOf(ix, q2, stage)
  {
    RetrieveBySignals(ix.chunks, q1, q2, stage, options, QueryEmbedding(e, ix, q1, stage));
  }

  lemma SameContentAnswers(e: Embedder, was: Index, now: Index, query: string, stage: string, options: RetrievalOptions)
    requires SameContent(was, now) && was.version == now.version && EmbeddingKeyOf(was, query, stage) in was.embeddings
    ensures Recompute(e, was, query, stage, options) == Recompute(e, now, query, stage, options)
    ensures EmbeddingKeyOf(now, query, stage) in now.embeddings
  {}

  /** The filing of the request's key, if any, was made by an alike request. */
  predicate FiledAlike(ix: Index, m: Memory, query: string, stage: string, options: RetrievalOptions) {
    var key := ResultKeyOf(ix, query, stage, options);
    key in m.filed ==>
      Alike(m.filed[key].query, m.filed[key].stage, m.filed[key].options, query, stage, options)
  }

  /** A search whose key is not outdated, and was filed by an alike request, returns what recomputing returns. */
  lemma FreshServed(e: Embedder, ix: Index, m: Memory, query: string, stage: string, options: RetrievalOptions)
    requires Remembers(MeaningOf(e), ix, m) && ResultKeyOf(ix, query, stage, options) !in m.outdated
    requires FiledAlike(ix, m, query, stage, options)
    ensures Search(e, ix, query, stage, options).1 == Recompute(e, ix, query, stage, options)
    ensures ResultKeyOf(ix, query, stage, options) in m.filed ==> EmbeddingKeyOf(ix, query, stage) in ix.embeddings
  {
    var key := ResultKeyOf(ix, query, stage, options);
    Served(e, ix, m, query, stage, options);
    if key in m.filed {
      var f := m.filed[key];
      EntryFaithful(MeaningOf(e), ix, m, key);
      SameContentAnswers(e, f.index, ix, f.query, f.stage, f.options);
      AlikeAnswered(e, ix, f.query, query, stage, options);
    }
  }

  /** A request whose key determines its signals. */
  predicate CleanRequest(query: string, stage: string) { SingleSpaced(query) && PipeFree(stage) }

  /** Clean requests with one key are alike. */
  lemma CleanAlike(ix: Index, q1: string, s1: string, o1: RetrievalOptions, q2: string, s2: string,
                   o2: RetrievalOptions)
    requires CleanRequest(q1, s1) && CleanRequest(q2, s2)
    requires ResultKeyOf(ix, q1, s1, o1) == ResultKeyOf(ix, q2, s2, o2)
    ensures Alike(q1, s1, o1, q2, s2, o2)
  {
    ResultKeyDetermines(QueryText(q1), s1, o1, QueryText(q2), s2, o2, ix.version, ix.registry);
    KeyTextDeterminesQuery(q1, q2);
    CaseKeepsSignals(q1, q2);
  }

  // Whole runs

  /** The requests of a run that have the same key are alike. */
  ghost predicate Unambiguous(version: string, registry: string, cs: seq<Command>) {
    forall c, d :: c in cs && d in cs && c.DoSearch? && d.DoSearch?
                   && KeyOf(version, registry, c) == KeyOf(version, registry, d)
                   ==> Alike(c.query, c.stage, c.options, d.query, d.stage, d.options)
  }

  function KeyOf(version: string, registry: string, c: Command): string
    requires c.DoSearch?
  {
    ResultKey(QueryText(c.query), c.stage, version, registry, c.options)
  }

  /** The filings are alike with the requests of the run that have their keys. */
  ghost predicate FilingsAlike(version: string, registry: string, m: Memory, cs: seq<Command>) {
    forall c :: c in cs && c.DoSearch? && KeyOf(version, registry, c) in m.filed ==>
                  var f := m.filed[KeyOf(version, registry, c)];
                  Alike(f.query, f.stage, f.options, c.query, c.stage, c.options)
  }

  /** No search asks for a key that was cached before the latest ingest since the last reset. */
  predicate FreshHits(version: string, registry: string, filed: set<string>, outdated: set<string>, cs: seq<Command>)
    decreases |cs|
  {
    if cs == [] then true
    else match cs[0]
      case DoSearch(_, _, _) =>
        var key := KeyOf(version, registry, cs[0]);
        key !in outdated && FreshHits(version, registry, filed + {key}, outdated, cs[1..])
      case DoIngest(_, _) => FreshHits(version, registry, filed, filed, cs[1..])
      case _ => FreshHits(version, registry, {}, {}, cs[1..])
  }

  predicate CleanSearches(cs: seq<Command>) {
    forall c :: c in cs && c.DoSearch? ==> CleanRequest(c.query, c.stage)
  }

  lemma CleanUnambiguous(ix: Index, cs: seq<Command>)
    requires CleanSearches(cs)
    ensures Unambiguous(ix.version, ix.registry, cs)
  {
    forall c, d | c in cs && d in cs && c.DoSearch? && d.DoSearch?
                  && KeyOf(ix.version, ix.registry, c) == KeyOf(ix.version, ix.registry, d)
      ensures Alike(c.query, c.stage, c.options, d.query, d.stage, d.options)
    {
      CleanAlike(ix, c.query, c.stage, c.options, d.query, d.stage, d.options);
    }
  }

  lemma RecomputeBare(e: Embedder, ix: Index, query: string, stage: string, options: RetrievalOptions)
    ensures Recompute(e, Bare(ix), query, stage, options) == Recompute(e, ix, query, stage, options)
    ensures QueryEmbedding(e, Bare(ix), query, stage) == QueryEmbedding(e, ix, query, stage)
  {}

  lemma SameEntry(m: map<string, seq<real>>, k: string)
    requires k in m
    ensures m[k := m[k]] == m
  {}

  /** A fresh search does what it does on the same index without a result cache. */
  lemma SearchMatchesCold(e: Embedder, ix: Index, m: Memory, query: string, stage: string, options: RetrievalOptions)
    requires Remembers(MeaningOf(e), ix, m) && ResultKeyOf(ix, query, stage, options) !in m.outdated
    requires FiledAlike(ix, m, query, stage, options)
    ensures Search(e, ix, query, stage, options).1 == Search(e, Bare(ix), query, stage, options).1
    ensures Bare(Search(e, ix, query, stage, options).0) == Bare(Search(e, Bare(ix), query, stage, options).0)
  {
    FreshServed(e, ix, m, query, stage, options);
    RecomputeBare(e, ix, query, stage, options);
    if ResultKeyOf(ix, query, stage, options) in m.filed {
      SameEntry(ix.embeddings, EmbeddingKeyOf(ix, query, stage));
    }
  }

  lemma WriteMatchesCold(e: Embedder, ix: Index, items: seq<Item>)
    ensures Bare(WriteApproved(e, Bare(ix), items)) == Bare(WriteApproved(e, ix, items))
  {}

  lemma IngestMatchesCold(e: Embedder, ix: Index, item: Item, config: Config)
    ensures Bare(Ingest(e, Bare(ix), item, config)) == Bare(Ingest(e, ix, item, config))
  {}

  /** The command does not ask for an outdated key or for a key filed by another kind of request. */
  predicate Fresh(ix: Index, m: Memory, c: Command) {
    c.DoSearch? ==>
      ResultKeyOf(ix, c.query, c.stage, c.options) !in m.outdated && FiledAlike(ix, m, c.query, c.stage, c.options)
  }

  lemma ApplyMatchesCold(e: Embedder, ix: Index, m: Memory, c: Command)
    ensures Remembers(MeaningOf(e), ix, m) && Fresh(ix, m, c) ==>
              Apply(e, ix, c).1 == ColdApply(e, Bare(ix), c).1 && ColdApply(e, Bare(ix), c).0 == Bare(Apply(e, ix, c).0)
  {
    if Remembers(MeaningOf(e), ix, m) && Fresh(ix, m, c) {
      match c
      case DoSearch(q, s, o) => SearchMatchesCold(e, ix, m, q, s, o);
      case DoApproveCandidate(item) => WriteMatchesCold(e, ix, [item]);
      case DoApproveSummary(item) => WriteMatchesCold(e, ix, [item]);
      case DoWriteApproved(items) => WriteMatchesCold(e, ix, items);
      case DoIngest(item, config) => IngestMatchesCold(e, ix, item, config);
    }
  }

  lemma FirstCommand(e: Embedder, ix: Index, cs: seq<Command>, now: Index, r: seq<SearchResult>)
    requires cs != [] && Apply(e, ix, cs[0]) == (now, r) && ColdApply(e, Bare(ix), cs[0]) == (Bare(now), r)
    ensures Run(e, ix, cs) == (Run(e, now, cs[1..]).0, r + Run(e, now, cs[1..]).1)
    ensures ColdRun(e, Bare(ix), cs).1 == r + ColdRun(e, Bare(now), cs[1..]).1
  {}

  lemma ApplyKeepsVersion(e: Embedder, ix: Index, c: Command)
    ensures Apply(e, ix, c).0.version == ix.version && Apply(e, ix, c).0.registry == ix.registry
  {}

  // What the next command leaves for the rest of the run

  lemma NextFresh(ix: Index, m: Memory, cs: seq<Command>)
    requires cs != [] && FilingsAlike(ix.version, ix.registry, m, cs)
    requires FreshHits(ix.version, ix.registry, m.filed.Keys, m.outdated, cs)
    ensures Fresh(ix, m, cs[0])
  {
    assert cs[0] in cs;
    if cs[0].DoSearch? {
      assert KeyOf(ix.version, ix.registry, cs[0]) == ResultKeyOf(ix, cs[0].query, cs[0].stage, cs[0].options);
    }
  }

  /** The memory after a command, as the list of commands sees it. */
  lemma RememberedKeys(e: Embedder, ix: Index, m: Memory, c: Command)
    ensures var after := Remember(e, ix, m, c);
            && after.filed.Keys == (if c.DoSearch? then m.filed.Keys + {KeyOf(ix.version, ix.registry, c)}
                                    else if c.DoIngest? then m.filed.Keys else {})
            && after.outdated == (if c.DoSearch? then m.outdated else if c.DoIngest? then m.filed.Keys else {})
            && forall key :: key in after.filed ==>
                 (key in m.filed && after.filed[key] == m.filed[key])
                 || (c.DoSearch? && key == KeyOf(ix.version, ix.registry, c) && after.filed[key].query == c.query
                     && after.filed[key].stage == c.stage && after.filed[key].options == c.options)
  {}

  lemma RestHits(version: string, registry: string, m: Memory, after: Memory, cs: seq<Command>)
    requires cs != [] && FreshHits(version, registry, m.filed.Keys, m.outdated, cs)
    requires var c := cs[0];
             && after.filed.Keys == (if c.DoSearch? then m.filed.Keys + {KeyOf(version, registry, c)}
                                     else if c.DoIngest? then m.filed.Keys else {})
             && after.outdated == (if c.DoSearch? then m.outdated else if c.DoIngest? then m.filed.Keys else {})
    ensures FreshHits(version, registry, after.filed.Keys, after.outdated, cs[1..])
  {}

  lemma RestFilings(version: string, registry: string, m: Memory, after: Memory, cs: seq<Command>)
    requires cs != [] && Unambiguous(version, registry, cs) && FilingsAlike(version, registry, m, cs)
    requires forall key :: key in after.filed ==>
               (key in m.filed && after.filed[key] == m.filed[key])
               || (cs[0].DoSearch? && key == KeyOf(version, registry, cs[0]) && after.filed[key].query == cs[0].query
                   && after.filed[key].stage == cs[0].stage && after.filed[key].options == cs[0].options)
    ensures FilingsAlike(version, registry, after, cs[1..]) && Unambiguous(version, registry, cs[1..])
  {
    assert cs[0] in cs && forall c :: c in cs[1..] ==> c in cs;
  }

  lemma RestOfRun(e: Embedder, ix: Index, m: Memory, cs: seq<Command>)
    requires cs != [] && Unambiguous(ix.version, ix.registry, cs) && FilingsAlike(ix.version, ix.registry, m, cs)
    requires FreshHits(ix.version, ix.registry, m.filed.Keys, m.outdated, cs)
    ensures var after := Remember(e, ix, m, cs[0]);
            && Unambiguous(ix.version, ix.registry, cs[1..]) && FilingsAlike(ix.version, ix.registry, after, cs[1..])
            && FreshHits(ix.version, ix.registry, after.filed.Keys, after.outdated, cs[1..])
  {
    RememberedKeys(e, ix, m, cs[0]);
    RestHits(ix.version, ix.registry, m, Remember(e, ix, m, cs[0]), cs);
    RestFilings(ix.version, ix.registry, m, Remember(e, ix, m, cs[0]), cs);
  }

  /**
   * Over whole runs the result cache is invisible: when requests with one key are alike, and no search asks for a
   * key cached before the latest ingest since the last reset, every search returns what it would return with the
   * result cache switched off.
   */
  lemma {:induction false} ResultCacheTransparent(e: Embedder, ix: Index, m: Memory, cs: seq<Command>)
    requires Remembers(MeaningOf(e), ix, m)
    requires Unambiguous(ix.version, ix.registry, cs) && FilingsAlike(ix.version, ix.registry, m, cs)
    requires FreshHits(ix.version, ix.registry, m.filed.Keys, m.outdated, cs)
    ensures Run(e, ix, cs).1 == ColdRun(e, Bare(ix), cs).1
    decreases |cs|
  {
    if cs != [] {
      var now, r := Apply(e, ix, cs[0]).0, Apply(e, ix, cs[0]).1;
      NextFresh(ix, m, cs);
      RestOfRun(e, ix, m, cs);
      ApplyMatchesCold(e, ix, m, cs[0]);
      ApplyRemembers(e, ix, m, cs[0]);
      ApplyKeepsVersion(e, ix, cs[0]);
      ResultCacheTransparent(e, now, Remember(e, ix, m, cs[0]), cs[1..]);
      FirstCommand(e, ix, cs, now, r);
    }
  }

  lemma NothingRemembered(e: Embedder, ix: Index)
    requires ix.results == map[]
    ensures Remembers(MeaningOf(e), ix, NOTHING_FILED)
  {}

  lemma ColdFromEmpty(e: Embedder, ix: Index, cs: seq<Command>)
    requires ix.results == map[] && Unambiguous(ix.version, ix.registry, cs)
    requires FreshHits(ix.version, ix.registry, {}, {}, cs)
    ensures Run(e, ix, cs).1 == ColdRun(e, Bare(ix), cs).1
  {
    NothingRemembered(e, ix);
    assert NOTHING_FILED.filed.Keys == {};
    ResultCacheTransparent(e, ix, NOTHING_FILED, cs);
  }

  /**
   * Both caches are invisible: with local embeddings as well, a run from empty caches returns exactly what the
   * pipeline without any cache returns.
   */
  lemma BothCachesTransparent(e: Embedder, ix: Index, cs: seq<Command>)
    requires ix.results == map[] && ix.embeddings == map[] && PlainConfig(ix.config) && ix.config.provider == LOCAL
    requires Unambiguous(ix.version, ix.registry, cs) && FreshHits(ix.version, ix.registry, {}, {}, cs)
    requires PlainCommands(cs) && LocalCommands(cs)
    ensures Run(e, ix, cs).1 == PlainRun(e, ix, cs).1
  {
    ColdFromEmpty(e, ix, cs);
    assert Bare(ix) == ix && Stripped(ix) == ix;
    ColdRunIsPlain(e, ix, cs);
  }
}
