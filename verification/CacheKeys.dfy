/**
 * The texts whose SHA-256 digests index the two memo caches. Digests are taken to be injective, so a key
 * is modelled by the text itself; what has to be proved is that the text determines the request.
 */
module CacheKeys {
  import opened Seqs
  import opened Text
  import opened QuerySignals

  datatype RetrievalOptions = RetrievalOptions(
    limit: int, lexicalLimit: int, vectorLimit: int, maxCharsPerChunk: int,
    embeddingModel: string, embeddingProvider: string, prefilterLimit: int)

  const RESULT_CACHE_VERSION := "retrieval-v2"

  predicate PipeFree(s: string) { '|' !in s }

  predicate PlainName(name: string) { PipeFree(name) && name != "" && name[0] !in ",}" }

  // json.dumps(..., sort_keys=True) of a flat object

  datatype Scalar = Text(s: string) | Number(n: int)
  datatype Field = Field(name: string, value: Scalar)

  function EscapeJson(s: string): string {
    if s == "" then ""
    else (if s[0] == '"' || s[0] == '\\' then ['\\', s[0]] else [s[0]]) + EscapeJson(s[1..])
  }

  function ScalarText(v: Scalar): string {
    match v
    case Text(s) => "\"" + EscapeJson(s) + "\""
    case Number(n) => IntText(n)
  }

  function FieldText(f: Field): string { "\"" + f.name + "\": " + ScalarText(f.value) }

  function Separator(remaining: nat): string { if remaining == 1 then "" else ", " }

  function FieldsText(fields: seq<Field>): (r: string)
    ensures r != ""
  {
    if fields == [] then "}" else FieldText(fields[0]) + (Separator(|fields|) + FieldsText(fields[1..]))
  }

  function ObjectText(fields: seq<Field>): string { "{" + FieldsText(fields) }

  /** Same member names, same kinds of value: what all option payloads have in common. */
  ghost predicate SameShape(a: seq<Field>, b: seq<Field>) {
    && |a| == |b|
    && forall i :: 0 <= i < |a| ==> a[i].name == b[i].name && a[i].value.Text? == b[i].value.Text?
  }

  lemma {:induction false} EscapedTextEnds(a: string, b: string, r1: string, r2: string)
    requires EscapeJson(a) + "\"" + r1 == EscapeJson(b) + "\"" + r2
    ensures a == b && r1 == r2
  {
    var x, y := EscapeJson(a) + "\"" + r1, EscapeJson(b) + "\"" + r2;
    assert x[0] == y[0];
    if a != "" && b != "" {
      var k := if a[0] == '"' || a[0] == '\\' then 2 else 1;
      assert k == 2 ==> x[1] == a[0];
      assert x[0] == '\\' ==> y[1] == b[0];
      assert a[0] == b[0];
      assert x[k..] == EscapeJson(a[1..]) + "\"" + r1;
      assert y[k..] == EscapeJson(b[1..]) + "\"" + r2;
      EscapedTextEnds(a[1..], b[1..], r1, r2);
      assert a == [a[0]] + a[1..] && b == [b[0]] + b[1..];
    } else if a == "" && b == "" {
      assert x[1..] == r1 && y[1..] == r2;
    } else {
      assert false;
    }
  }

  predicate IsNumberChar(c: char) { IsDigit(c) || c == '-' }

  lemma NumberEnds(m: int, n: int, r1: string, r2: string)
    requires IntText(m) + r1 == IntText(n) + r2
    requires r1 != "" && !IsNumberChar(r1[0]) && r2 != "" && !IsNumberChar(r2[0])
    ensures m == n && r1 == r2
  {
    var x, a, b := IntText(m) + r1, IntText(m), IntText(n);
    assert forall i :: 0 <= i < |a| ==> x[i] in a;
    assert forall i :: 0 <= i < |b| ==> x[i] == b[i] && x[i] in b;
    assert x[|a|] == r1[0] && x[|b|] == r2[0];
    RunLengthIs(x, IsNumberChar, |a|);
    RunLengthIs(x, IsNumberChar, |b|);
    assert a == x[..|a|] == b && r1 == x[|a|..] == r2;
    IntTextInjective(m, n);
  }

  lemma AfterQuote(inner: string, rest: string)
    ensures ("\"" + inner + "\"" + rest)[1..] == inner + "\"" + rest
  {}

  lemma TextEnds(s: string, t: string, r1: string, r2: string)
    requires ScalarText(Text(s)) + r1 == ScalarText(Text(t)) + r2
    ensures s == t && r1 == r2
  {
    AfterQuote(EscapeJson(s), r1);
    AfterQuote(EscapeJson(t), r2);
    EscapedTextEnds(s, t, r1, r2);
  }

  lemma ScalarEnds(v: Scalar, w: Scalar, r1: string, r2: string)
    requires ScalarText(v) + r1 == ScalarText(w) + r2 && v.Text? == w.Text?
    requires r1 != "" && !IsNumberChar(r1[0]) && r2 != "" && !IsNumberChar(r2[0])
    ensures v == w && r1 == r2
  {
    if v.Text? {
      TextEnds(v.s, w.s, r1, r2);
    } else {
      NumberEnds(v.n, w.n, r1, r2);
    }
  }

  lemma FirstFieldEnds(f: Field, g: Field, r1: string, r2: string)
    requires f.name == g.name && f.value.Text? == g.value.Text?
    requires FieldText(f) + r1 == FieldText(g) + r2
    requires r1 != "" && !IsNumberChar(r1[0]) && r2 != "" && !IsNumberChar(r2[0])
    ensures f == g && r1 == r2
  {
    var lead, v, w := "\"" + f.name + "\": ", ScalarText(f.value), ScalarText(g.value);
    assert v + r1 == (FieldText(f) + r1)[|lead|..] && w + r2 == (FieldText(g) + r2)[|lead|..];
    ScalarEnds(f.value, g.value, r1, r2);
  }

  lemma SameEnd(a: string, x: string, y: string)
    requires a + x == a + y
    ensures x == y
  {
    assert x == (a + x)[|a|..] && y == (a + y)[|a|..];
  }

  lemma FieldsTextHead(fields: seq<Field>)
    ensures !IsNumberChar(FieldsText(fields)[0])
  {}

  lemma {:induction false} FieldsTextInjective(a: seq<Field>, b: seq<Field>)
    requires SameShape(a, b) && FieldsText(a) == FieldsText(b)
    ensures a == b
  {
    if a != [] {
      var sep := Separator(|a|);
      var x, y := FieldsText(a[1..]), FieldsText(b[1..]);
      FieldsTextHead(a[1..]);
      FieldsTextHead(b[1..]);
      FirstFieldEnds(a[0], b[0], sep + x, sep + y);
      SameEnd(sep, x, y);
      FieldsTextInjective(a[1..], b[1..]);
      assert a == [a[0]] + a[1..] && b == [b[0]] + b[1..];
    }
  }

  lemma {:induction false} EscapedQuotes(s: string, i: nat)
    requires i < |EscapeJson(s)| && EscapeJson(s)[i] == '"'
    ensures i > 0 && EscapeJson(s)[i - 1] == '\\'
  {
    var k := if s[0] == '"' || s[0] == '\\' then 2 else 1;
    if i >= k {
      assert EscapeJson(s)[k..] == EscapeJson(s[1..]);
      assert EscapeJson(s[1..])[i - k] == '"';
      EscapedQuotes(s[1..], i - k);
    }
  }

  lemma PipeInsideText(text: string, rest: string, i: nat)
    requires rest != "" && i <= |EscapeJson(text)|
    requires var t := EscapeJson(text) + "\"" + rest;
             i + 3 < |t| && t[i] == '|' && t[i + 1] == '{' && t[i + 2] == '"'
    ensures (EscapeJson(text) + "\"" + rest)[i + 3] == rest[0]
  {
    var inner := EscapeJson(text);
    var t := inner + "\"" + rest;
    assert t[|inner|] == '"' && t[|inner| + 1] == rest[0];
    if i + 2 < |inner| {
      assert inner[i + 2] == '"' && inner[i + 1] == '{';
      EscapedQuotes(text, i + 2);
      assert false;
    }
  }

  lemma PipeInsideField(f: Field, rest: string, i: nat)
    requires PlainName(f.name) && rest != "" && i < |FieldText(f)|
    requires var t := FieldText(f) + rest; i + 3 < |t| && t[i] == '|' && t[i + 1] == '{' && t[i + 2] == '"'
    ensures (FieldText(f) + rest)[i + 3] == rest[0]
  {
    var lead, value := "\"" + f.name + "\": ", ScalarText(f.value);
    var t := FieldText(f) + rest;
    assert forall j :: 0 <= j < |lead| ==> t[j] == lead[j] && (lead[j] in f.name || lead[j] in "\": ");
    assert i >= |lead|;
    var j := i - |lead|;
    assert t[i] == value[j] && value[j] in value;
    assert f.value.Text?;
    var shown := EscapeJson(f.value.s) + "\"" + rest;
    assert t[|lead| + 1..] == shown;
    assert j > 0;
    PipeInsideText(f.value.s, rest, j - 1);
  }

  /** After `|{"` a string value has just ended, so a comma or the closing brace follows. */
  lemma {:induction false} PipeBraceQuote(fields: seq<Field>, i: nat)
    requires forall f :: f in fields ==> PlainName(f.name)
    requires var t := FieldsText(fields); i + 3 < |t| && t[i] == '|' && t[i + 1] == '{' && t[i + 2] == '"'
    ensures FieldsText(fields)[i + 3] in ",}"
  {
    assert fields != [] && fields[0] in fields && forall f :: f in fields[1..] ==> f in fields;
    var first, sep, rest := FieldText(fields[0]), Separator(|fields|), FieldsText(fields[1..]);
    assert FieldsText(fields) == first + (sep + rest);
    if i < |first| {
      PipeInsideField(fields[0], sep + rest, i);
      assert |fields| == 1 ==> sep + rest == "}";
    } else {
      PipeAfter(first, sep, rest, i);
      PipeBraceQuote(fields[1..], i - |first| - |sep|);
    }
  }

  lemma PipeAfter(first: string, sep: string, rest: string, i: nat)
    requires |first| <= i < |first + (sep + rest)| && (first + (sep + rest))[i] == '|' && PipeFree(sep)
    ensures i >= |first| + |sep|
    ensures (first + (sep + rest))[i..] == rest[i - |first| - |sep|..]
  {
    assert forall k :: 0 <= k < |sep| ==> (sep + rest)[k] in sep;
    assert (first + (sep + rest))[i] == (sep + rest)[i - |first|];
  }

  /** One object text cannot end another one right after a pipe. */
  lemma ObjectTextAfterPipe(a: seq<Field>, b: seq<Field>, k: nat)
    requires SameShape(a, b) && a != [] && forall f :: f in a ==> PlainName(f.name)
    requires 0 < k <= |ObjectText(a)| && ObjectText(a)[k - 1] == '|'
    ensures ObjectText(a)[k..] != ObjectText(b)
  {
    var t, s, u := FieldsText(a), ObjectText(a), ObjectText(b);
    if s[k..] == u {
      assert a[0] in a && PlainName(b[0].name);
      FirstChars(b);
      assert s[k..][0] == '{' && s[k..][1] == '"' && s[k..][2] == b[0].name[0];
      assert k >= 2;
      assert t[k - 2] == s[k - 1] && t[k - 1] == s[k] && t[k] == s[k + 1] && t[k + 1] == s[k + 2];
      PipeBraceQuote(a, k - 2);
      assert false;
    }
  }

  lemma FirstChars(fields: seq<Field>)
    requires fields != [] && fields[0].name != ""
    ensures var u := ObjectText(fields); |u| > 2 && u[0] == '{' && u[1] == '"' && u[2] == fields[0].name[0]
  {
    assert FieldText(fields[0])[0] == '"' && FieldText(fields[0])[1] == fields[0].name[0];
  }

  // The two keys

  function OptionFields(o: RetrievalOptions): seq<Field> {
    [Field("embedding_model", Text(o.embeddingModel)),
     Field("embedding_provider", Text(o.embeddingProvider)),
     Field("lexical_limit", Number(o.lexicalLimit)),
     Field("limit", Number(o.limit)),
     Field("max_chars_per_chunk", Number(o.maxCharsPerChunk)),
     Field("prefilter_limit", Number(o.prefilterLimit)),
     Field("vector_limit", Number(o.vectorLimit))]
  }

  /** _retrieval_result_cache_key; an absent stage is the empty stage, as the key writes it. */
  function ResultKey(queryText: string, stage: string, version: string, registry: string, options: RetrievalOptions)
    : string
  {
    Normalize(queryText) + "|" + stage
    + ("|" + version + "|" + RESULT_CACHE_VERSION + "|" + registry + "|") + ObjectText(OptionFields(options))
  }

  /** _query_embedding_cache_key */
  function EmbeddingKey(queryText: string, stage: string, provider: string, model: string, version: string): string {
    Normalize(queryText) + "|" + stage + "|" + provider + "|" + model + ("|" + version)
  }

  lemma LastPipe(a: string, x: string, b: string, y: string)
    requires PipeFree(x) && PipeFree(y) && a + "|" + x == b + "|" + y
    ensures a == b && x == y
  {
    var s := a + "|" + x;
    assert s[|a|] == '|' && s[|b|] == '|';
    assert forall i :: |a| < i < |s| ==> s[i] in x;
    assert forall i :: |b| < i < |s| ==> s[i] in y;
    assert a == s[..|a|] == b && x == s[|a| + 1..] == y;
  }

  lemma SameTail(a: string, x: string, b: string, y: string)
    requires a + x == b + y && |x| == |y|
    ensures a == b && x == y
  {
    assert a == (a + x)[..|a|] && b == (b + y)[..|b|];
    assert x == (a + x)[|a|..] && y == (b + y)[|b|..];
  }

  lemma OptionFieldsShape(o1: RetrievalOptions, o2: RetrievalOptions)
    ensures SameShape(OptionFields(o1), OptionFields(o2))
  {}

  lemma NamesPlain()
    ensures PlainName("embedding_model") && PlainName("embedding_provider") && PlainName("lexical_limit")
    ensures PlainName("limit") && PlainName("max_chars_per_chunk") && PlainName("prefilter_limit")
    ensures PlainName("vector_limit")
  {}

  lemma OptionNamesPlain(o: RetrievalOptions)
    ensures forall f :: f in OptionFields(o) ==> PlainName(f.name)
  {
    NamesPlain();
  }

  /** For stages without a pipe, the result key determines normalised query text, stage and options. */
  lemma ResultKeyDetermines(t1: string, s1: string, o1: RetrievalOptions, t2: string, s2: string, o2: RetrievalOptions,
                            version: string, registry: string)
    requires PipeFree(s1) && PipeFree(s2)
    requires ResultKey(t1, s1, version, registry, o1) == ResultKey(t2, s2, version, registry, o2)
    ensures Normalize(t1) == Normalize(t2) && s1 == s2 && o1 == o2
  {
    var mid := "|" + version + "|" + RESULT_CACHE_VERSION + "|" + registry + "|";
    var f1, f2 := OptionFields(o1), OptionFields(o2);
    var h1, h2 := Normalize(t1) + "|" + s1, Normalize(t2) + "|" + s2;
    SameJson(h1, f1, h2, f2, mid) by {
      OptionFieldsShape(o1, o2);
      OptionNamesPlain(o1);
      OptionNamesPlain(o2);
    }
    SameTail(h1 + mid, ObjectText(f1), h2 + mid, ObjectText(f2));
    SameTail(h1, mid, h2, mid);
    LastPipe(Normalize(t1), s1, Normalize(t2), s2);
    assert f1 == f2;
    assert f1[0] == f2[0] && f1[1] == f2[1] && f1[2] == f2[2] && f1[3] == f2[3];
    assert f1[4] == f2[4] && f1[5] == f2[5] && f1[6] == f2[6];
  }

  lemma SameObject(f1: seq<Field>, f2: seq<Field>)
    requires SameShape(f1, f2) && ObjectText(f1) == ObjectText(f2)
    ensures f1 == f2
  {
    SameEnd("{", FieldsText(f1), FieldsText(f2));
    FieldsTextInjective(f1, f2);
  }

  lemma SameJson(h1: string, f1: seq<Field>, h2: string, f2: seq<Field>, mid: string)
    requires SameShape(f1, f2) && f1 != [] && mid != "" && mid[|mid| - 1] == '|'
    requires forall f :: f in f1 ==> PlainName(f.name)
    requires forall f :: f in f2 ==> PlainName(f.name)
    requires h1 + mid + ObjectText(f1) == h2 + mid + ObjectText(f2)
    ensures f1 == f2
  {
    JsonNotLonger(h1 + mid, f1, h2 + mid, f2);
    JsonNotLonger(h2 + mid, f2, h1 + mid, f1);
    SameTail(h1 + mid, ObjectText(f1), h2 + mid, ObjectText(f2));
    SameObject(f1, f2);
  }

  lemma JsonNotLonger(p1: string, f1: seq<Field>, p2: string, f2: seq<Field>)
    requires SameShape(f1, f2) && f1 != [] && p2 != "" && p2[|p2| - 1] == '|'
    requires forall f :: f in f1 ==> PlainName(f.name)
    requires p1 + ObjectText(f1) == p2 + ObjectText(f2)
    ensures |ObjectText(f1)| <= |ObjectText(f2)|
  {
    var j1, j2 := ObjectText(f1), ObjectText(f2);
    if |j1| > |j2| {
      var k := |j1| - |j2|;
      assert j1[k - 1] == (p1 + j1)[|p1| + k - 1] == p2[|p2| - 1];
      assert j1[k..] == (p1 + j1)[|p1| + k..] == (p2 + j2)[|p2|..] == j2;
      assert f1[0] in f1;
      ObjectTextAfterPipe(f1, f2, k);
      assert false;
    }
  }

  lemma EmbeddingKeyDetermines(t1: string, s1: string, p1: string, m1: string,
                               t2: string, s2: string, p2: string, m2: string, version: string)
    requires PipeFree(s1) && PipeFree(s2) && PipeFree(p1) && PipeFree(p2) && PipeFree(m1) && PipeFree(m2)
    requires EmbeddingKey(t1, s1, p1, m1, version) == EmbeddingKey(t2, s2, p2, m2, version)
    ensures Normalize(t1) == Normalize(t2) && s1 == s2 && p1 == p2 && m1 == m2
  {
    var h1, h2 := Normalize(t1) + "|" + s1, Normalize(t2) + "|" + s2;
    SameTail(h1 + "|" + p1 + "|" + m1, "|" + version, h2 + "|" + p2 + "|" + m2, "|" + version);
    LastPipe(h1 + "|" + p1, m1, h2 + "|" + p2, m2);
    LastPipe(h1, p1, h2, p2);
    LastPipe(Normalize(t1), s1, Normalize(t2), s2);
  }

  /** The stage must be pipe-free: with a pipe in it, two different requests share one result key. */
  lemma PipeInStageCollides(version: string, registry: string, options: RetrievalOptions)
    ensures ResultKey("x|y", "", version, registry, options) == ResultKey("x", "y|", version, registry, options)
    ensures Normalize("x|y") != Normalize("x")
  {
    RunsOfWord("x|y", NonSpace);
    RunsOfWord("x", NonSpace);
    assert Lower("x|y") == "x|y" && Lower("x") == "x";
    assert "x|y" + "|" + "" == "x" + "|" + "y|";
  }

  // The normalised text determines a single-spaced query.

  /** All words of the lower-cased members, in order. */
  function LoweredWords(ws: seq<string>): seq<string> {
    if ws == [] then [] else Words(Lower(ws[0])) + LoweredWords(ws[1..])
  }

  lemma {:induction false} WordsOfJoinedTerms(ws: seq<string>)
    ensures Words(Lower(Join(ws, " "))) == LoweredWords(ws)
  {
    if |ws| == 1 {
      assert LoweredWords(ws) == Words(Lower(ws[0])) + [];
    } else if |ws| > 1 {
      var rest := Join(ws[1..], " ");
      LowerAppend(ws[0] + " ", rest);
      LowerAppend(ws[0], " ");
      assert Lower(" ") == [' '];
      RunsSeparated(Lower(ws[0]), ' ', Lower(rest), NonSpace);
      WordsOfJoinedTerms(ws[1..]);
    }
  }

  lemma {:induction false} LoweredWordsRemove(ws: seq<string>, i: nat)
    requires i < |ws|
    ensures |LoweredWords(ws)| == |LoweredWords(ws[..i] + ws[i + 1..])| + |Words(Lower(ws[i]))|
  {
    if i == 0 {
      assert ws[..0] + ws[1..] == ws[1..];
    } else {
      assert (ws[..i] + ws[i + 1..])[1..] == ws[1..][..i - 1] + ws[1..][i..];
      LoweredWordsRemove(ws[1..], i - 1);
    }
  }

  lemma {:induction false} FewerTermsFewerWords(xs: seq<string>, ys: seq<string>)
    requires Distinct(xs) && forall x :: x in xs ==> x in ys
    ensures |LoweredWords(xs)| <= |LoweredWords(ys)|
  {
    if xs != [] {
      assert xs[0] in ys;
      var i :| 0 <= i < |ys| && ys[i] == xs[0];
      var rest := ys[..i] + ys[i + 1..];
      forall x | x in xs[1..] ensures x in rest {
        assert x in xs;
        var j :| 0 <= j < |ys| && ys[j] == x;
        assert x != xs[0];
        assert if j < i then rest[j] == x else rest[j - 1] == x;
      }
      assert Distinct(xs[1..]);
      FewerTermsFewerWords(xs[1..], rest);
      LoweredWordsRemove(ys, i);
    }
  }

  /** Expansion only grows when the query is extended. */
  lemma ExpansionGrows(a: string, b: string)
    requires a <= b
    ensures |LoweredWords(ExpandLowered(a))| <= |LoweredWords(ExpandLowered(b))|
  {
    FiredGrows(EXPANSION_RULES, a, b);
    FewerTermsFewerWords(ExpandLowered(a), ExpandLowered(b));
  }

  lemma SingleSpacedLower(q: string)
    requires SingleSpaced(q)
    ensures SingleSpaced(Lower(q)) && Join(Words(Lower(q)), " ") == Lower(q)
  {
    JoinOfWords(Lower(q));
  }

  lemma {:induction false} JoinPrefix(xs: seq<string>, ys: seq<string>)
    requires xs <= ys
    ensures Join(xs, " ") <= Join(ys, " ")
  {
    if xs != [] {
      assert ys[0] == xs[0] && xs[1..] <= ys[1..];
      JoinPrefix(xs[1..], ys[1..]);
    }
  }

  lemma KeyTextDeterminesQueryOrdered(q1: string, q2: string)
    requires SingleSpaced(q1) && SingleSpaced(q2)
    requires |Words(Lower(q1))| <= |Words(Lower(q2))|
    requires Normalize(QueryText(q1)) == Normalize(QueryText(q2))
    ensures Lower(q1) == Lower(q2)
  {
    var w1, w2 := Words(Lower(q1)), Words(Lower(q2));
    var e1, e2 := ExpandQueryTerms(q1), ExpandQueryTerms(q2);
    WordsOfNormalize(QueryText(q1));
    WordsOfNormalize(QueryText(q2));
    WordsOfJoinedTerms([q1] + e1);
    WordsOfJoinedTerms([q2] + e2);
    assert ([q1] + e1)[1..] == e1 && ([q2] + e2)[1..] == e2;
    assert w1 + LoweredWords(e1) == w2 + LoweredWords(e2);
    assert w1 == (w2 + LoweredWords(e2))[..|w1|] == w2[..|w1|];
    SingleSpacedLower(q1);
    SingleSpacedLower(q2);
    JoinPrefix(w1, w2);
    ExpansionGrows(Lower(q1), Lower(q2));
    assert |w1| == |w2|;
  }

  /** Two trimmed single-spaced queries with one normalised query text differ at most in letter case. */
  lemma KeyTextDeterminesQuery(q1: string, q2: string)
    requires SingleSpaced(q1) && SingleSpaced(q2)
    requires Normalize(QueryText(q1)) == Normalize(QueryText(q2))
    ensures Lower(q1) == Lower(q2)
  {
    if |Words(Lower(q1))| <= |Words(Lower(q2))| {
      KeyTextDeterminesQueryOrdered(q1, q2);
    } else {
      KeyTextDeterminesQueryOrdered(q2, q1);
    }
  }

  // Without single spacing the key no longer determines the signals.

  /** Too long for nine characters, or starting with one of the letters b, c, f, g, l, p. */
  predicate Unfit(t: string) {
    |t| > 9 || (t != "" && t[0] in "bcfglp")
  }

  lemma UnfitAbsent(s: string, t: string)
    requires |s| <= 9 && Unfit(t) && forall c :: c in s ==> c !in "bcfglp"
    ensures !Contains(s, t)
  {
    forall i | 0 <= i <= |s| && |t| <= |s| - i ensures !OccursAt(s, t, i) {
      assert s[i..i + |t|][0] in s;
    }
  }

  lemma AliasesUnfit()
    ensures forall r, t :: r in PRICE_ACTION_ALIASES && t in r.triggers ==> Unfit(t)
  {
    assert Unfit("break of structure") && Unfit("bos") && Unfit("choch") && Unfit("liquidity sweep");
    assert Unfit("rejection candle") && Unfit("support resistance") && Unfit("fvg");
  }

  lemma ExpansionTriggersUnfit()
    ensures forall r, t :: r in EXPANSION_RULES && t in r.triggers ==> Unfit(t)
  {
    AliasesUnfit();
    assert Unfit("lookahead_on") && Unfit("cannot lose") && Unfit("guaranteed") && Unfit("guarantee");
    assert Unfit("profit") && Unfit("live-ready") && Unfit("live ready") && Unfit("certified");
  }

  lemma NoExpansion(q: string)
    requires Lower(q) == q && |q| <= 9 && forall c :: c in q ==> c !in "bcfglp"
    ensures ExpandQueryTerms(q) == [] && QueryText(q) == q
  {
    ExpansionTriggersUnfit();
    forall r | r in EXPANSION_RULES ensures !ContainsAny(q, r.triggers) {
      forall t | t in r.triggers ensures !Contains(q, t) {
        UnfitAbsent(q, t);
      }
    }
    NothingFires(EXPANSION_RULES, q);
  }

  lemma BoundariesRequired(q: string, intent: Intent)
    ensures WORKFLOW_SOURCES[4] in RequiredSourceIds(q, intent) <==> ContainsAny(Lower(q), WORKFLOW_TRIGGERS[4])
  {
    WorkflowSourcesDistinct();
    SourceFiredIff(WORKFLOW_TRIGGERS, WORKFLOW_SOURCES, Lower(q), 4);
  }

  /** Doubling a blank changes no word. */
  lemma DoubleBlankWords(u: string, v: string)
    ensures Words(u + " " + v) == Words(u + "  " + v)
  {
    RunsSeparated(u, ' ', v, NonSpace);
    RunsSeparated(u, ' ', " " + v, NonSpace);
    assert u + "  " + v == u + [' '] + (" " + v) && (" " + v)[1..] == v;
  }

  lemma DoubleBlankTriggers()
    ensures ContainsAny("raw json", WORKFLOW_TRIGGERS[4])
    ensures !ContainsAny("raw  json", WORKFLOW_TRIGGERS[4])
  {
    assert OccursAt("raw json", "raw json", 0);
    assert "raw json" in WORKFLOW_TRIGGERS[4];
    var s := "raw  json";
    forall t | t in WORKFLOW_TRIGGERS[4] ensures !Contains(s, t) {
      if |t| <= 9 {
        assert t == "raw json";
        assert s[0..8][4] != t[4] && s[1..9][0] != t[0];
      }
    }
  }

  lemma RawJson(a: string)
    requires a == "raw json" || a == "raw  json"
    ensures Lower(a) == a && QueryText(a) == a
  {
    assert Lower(a) == a;
    NoExpansion(a);
  }

  lemma DoubleBlankSameText(a: string, b: string)
    requires a == "raw json" && b == "raw  json"
    ensures Normalize(QueryText(a)) == Normalize(QueryText(b))
  {
    RawJson(a);
    RawJson(b);
    DoubleBlankWords("raw", "json");
    assert a == "raw" + " " + "json" && b == "raw" + "  " + "json";
  }

  lemma DoubleBlankSignals(a: string, b: string, intent: Intent)
    requires a == "raw json" && b == "raw  json"
    ensures WORKFLOW_SOURCES[4] in RequiredSourceIds(a, intent)
    ensures WORKFLOW_SOURCES[4] !in RequiredSourceIds(b, intent)
  {
    RawJson(a);
    RawJson(b);
    DoubleBlankTriggers();
    BoundariesRequired(a, intent);
    BoundariesRequired(b, intent);
  }

  /**
   * Single spacing is needed: these two queries share every cache key, yet only the first one requires the
   * model-workflow source.
   */
  lemma DoubleBlankCollides(a: string, b: string, intent: Intent)
    requires a == "raw json" && b == "raw  json"
    ensures Normalize(QueryText(a)) == Normalize(QueryText(b))
    ensures RequiredSourceIds(a, intent) != RequiredSourceIds(b, intent)
  {
    DoubleBlankSameText(a, b);
    DoubleBlankSignals(a, b, intent);
  }
}
