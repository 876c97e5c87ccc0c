/** What the retrieval code reads out of a query text: expansion terms, intent tags, required sources. */
module QuerySignals {
  import opened Seqs
  import opened Text

  /** If any trigger occurs in the lower-cased query, the rule contributes its terms. */
  datatype Rule = Rule(triggers: seq<string>, terms: seq<string>)

  predicate ContainsAny(lowered: string, triggers: seq<string>) {
    exists t :: t in triggers && Contains(lowered, t)
  }

  function Fired(rules: seq<Rule>, lowered: string): (terms: seq<string>)
    ensures forall t :: t in terms ==> exists r :: r in rules && ContainsAny(lowered, r.triggers) && t in r.terms
    ensures forall r, t :: r in rules && ContainsAny(lowered, r.triggers) && t in r.terms ==> t in terms
  {
    if rules == [] then []
    else if ContainsAny(lowered, rules[0].triggers) then rules[0].terms + Fired(rules[1..], lowered)
    else Fired(rules[1..], lowered)
  }

  lemma FiredGrows(rules: seq<Rule>, a: string, b: string)
    requires a <= b
    ensures forall t :: t in Fired(rules, a) ==> t in Fired(rules, b)
  {
    forall t | t in Fired(rules, a) ensures t in Fired(rules, b) {
      var r :| r in rules && ContainsAny(a, r.triggers) && t in r.terms;
      var trigger :| trigger in r.triggers && Contains(a, trigger);
      ContainsPrefix(a, b, trigger);
      assert ContainsAny(b, r.triggers);
    }
  }

  lemma {:induction false} NothingFires(rules: seq<Rule>, lowered: string)
    requires forall r :: r in rules ==> !ContainsAny(lowered, r.triggers)
    ensures Fired(rules, lowered) == []
  {
    if rules != [] {
      assert rules[0] in rules;
      NothingFires(rules[1..], lowered);
    }
  }

  // expand_query_terms

  const PRICE_ACTION_ALIASES: seq<Rule> := [
    Rule(["break of structure"], ["BOS", "market structure break", "swing break"]),
    Rule(["bos"], ["break of structure", "market structure break", "swing high", "swing low"]),
    Rule(["choch"], ["change of character", "market structure shift"]),
    Rule(["liquidity sweep"], ["stop hunt", "sweep and reclaim", "false break"]),
    Rule(["rejection candle"], ["wick rejection", "pin bar", "engulfing confirmation"]),
    Rule(["support resistance"], ["range high", "range low", "supply demand"]),
    Rule(["fvg"], ["fair value gap", "imbalance"])
  ]

  const EXPANSION_RULES: seq<Rule> := PRICE_ACTION_ALIASES + [
    Rule(["lookahead_on"], ["repaint", "barmerge.lookahead_off", "request.security"]),
    Rule(["cannot lose", "guaranteed", "guarantee", "profit", "live-ready", "live ready", "certified"],
         ["risk policy", "prohibited claim", "must not claim", "live trading approval"])
  ]

  function ExpandLowered(lowered: string): seq<string> {
    Dedupe(Fired(EXPANSION_RULES, lowered))
  }

  function ExpandQueryTerms(query: string): seq<string> {
    ExpandLowered(Lower(query))
  }

  /** " ".join([query, *expanded_terms]) */
  function QueryText(query: string): string {
    Join([query] + ExpandQueryTerms(query), " ")
  }

  function FirstTrigger(r: Rule): string { if r.triggers == [] then "" else r.triggers[0] }

  /** The first triggers of the rules that a text mentions. */
  function NamesOf(rules: seq<Rule>, lowered: string): seq<string> {
    Map(FirstTrigger, Filter((r: Rule) => ContainsAny(lowered, r.triggers), rules))
  }

  /** _important_phrases */
  function ImportantPhrases(text: string): seq<string> {
    var lowered := Lower(text);
    Dedupe(NamesOf(PRICE_ACTION_ALIASES, lowered) + Map(Lower, ExpandLowered(lowered)))
  }

  // classify_prompt

  datatype Intent = Intent(tags: set<string>, noIndicators: bool)

  const TAG_RULES: seq<Rule> := [
    Rule(["price action", "break of structure", "bos", "choch", "liquidity", "sweep", "rejection", "support",
          "resistance", "order block", "fvg"], ["price_action"]),
    Rule(["rsi", "macd", "moving average", "sma", "ema", "indicator", "bollinger", "atr"], ["indicator"]),
    Rule(["risk", "stop", "take profit", "position sizing", "drawdown", "guarantee", "guaranteed", "profit",
          "live-ready", "live ready", "certified"], ["risk"]),
    Rule(["pine", "tradingview", "strategy", "indicator"], ["pine"]),
    Rule(["mql5", "mt5", "metatrader", "expert advisor"], ["mql5"]),
    Rule(["crypto", "bitcoin", "btc", "ethereum", "eth", "altcoin", "perpetual", "funding", "exchange"], ["crypto"]),
    Rule(["forex", "fx", "eurusd", "gbpusd", "usdjpy", "session", "london", "new york", "rollover", "spread"],
         ["forex"])
  ]

  function ClassifyLowered(lowered: string): Intent {
    var byRule := Fired(TAG_RULES, lowered);
    var both := if Contains(lowered, "pine") && ContainsAny(lowered, ["mql5", "mt5", "metatrader"])
                then ["both_platform"] else [];
    var found := byRule + both;
    var tags := if found == [] then ["price_action", "risk", "pine"] else found;
    Intent((set t | t in tags),
           ContainsAny(lowered, ["no indicator", "without indicator", "do not use indicators", "price action only"]))
  }

  function ClassifyPrompt(query: string): Intent {
    ClassifyLowered(Lower(query))
  }

  // _required_source_ids

  const RISK_CLAIMS: seq<string> :=
    ["guarantee", "guaranteed", "profit", "no-loss", "cannot lose", "live-ready", "live ready", "certified"]

  const WORKFLOW_TRIGGERS: seq<seq<string>> := [
    ["bot", "bots", "paper bot", "paper runtime", "kill switch"],
    ["backtest preview", "local preview", "run backtest", "equity curve", "query_backtest_trades"],
    ["variant lab", "robustness report", "run_backtest_variant_lab", "build_robustness_report"],
    ["proposed order intent", "order intent", "risk gate", "run_risk_gate"],
    ["artifact exposure", "internal artifact", "user-facing artifact", "raw json", "compile report",
     "trades json", "knowledge proposal", "repair validation", "static validation blocker", "market research"]
  ]

  const RISK_POLICY := "internal-risk-policy"

  const WORKFLOW_SOURCES: seq<string> := [
    "internal-bots-chat-workflow",
    "internal-backtest-preview-workflow",
    "internal-variant-robustness-workflow",
    "internal-risk-gate-order-intent-workflow",
    "internal-model-workflow-boundaries"
  ]

  function SourcesFired(triggers: seq<seq<string>>, sources: seq<string>, lowered: string): (r: seq<string>)
    ensures forall s :: s in r ==> s in sources
    ensures Distinct(sources) ==> Distinct(r)
  {
    if triggers == [] || sources == [] then []
    else
      var rest := SourcesFired(triggers[1..], sources[1..], lowered);
      assert Distinct(sources) ==> Distinct(sources[1..]) && sources[0] !in sources[1..];
      if ContainsAny(lowered, triggers[0]) then [sources[0]] + rest else rest
  }

  function RequiredLowered(lowered: string, intent: Intent): seq<string> {
    (if "risk" in intent.tags && ContainsAny(lowered, RISK_CLAIMS) then [RISK_POLICY] else [])
    + SourcesFired(WORKFLOW_TRIGGERS, WORKFLOW_SOURCES, lowered)
  }

  function RequiredSourceIds(query: string, intent: Intent): seq<string> {
    RequiredLowered(Lower(query), intent)
  }

  lemma {:induction false} SourceFiredIff(triggers: seq<seq<string>>, sources: seq<string>, lowered: string, i: nat)
    requires i < |triggers| == |sources| && Distinct(sources)
    ensures sources[i] in SourcesFired(triggers, sources, lowered) <==> ContainsAny(lowered, triggers[i])
  {
    assert Distinct(sources[1..]) && sources[0] !in sources[1..];
    if i > 0 {
      SourceFiredIff(triggers[1..], sources[1..], lowered, i - 1);
    }
  }

  lemma WorkflowSourcesDistinct()
    ensures Distinct(WORKFLOW_SOURCES) && RISK_POLICY !in WORKFLOW_SOURCES
  {
    var ids := WORKFLOW_SOURCES;
    assert |RISK_POLICY| == 20 && |ids[0]| == 27 && |ids[1]| == 34 && |ids[2]| == 36 && |ids[3]| == 40
        && |ids[4]| == 34;
    assert ids[1][9] == 'b' && ids[4][9] == 'm';
  }

  /** A source is required at most once. */
  lemma RequiredSourcesDistinct(query: string, intent: Intent)
    ensures Distinct(RequiredSourceIds(query, intent))
  {
    WorkflowSourcesDistinct();
    DistinctAppend([RISK_POLICY], SourcesFired(WORKFLOW_TRIGGERS, WORKFLOW_SOURCES, Lower(query)));
  }

  /** _asks_for_sources */
  predicate AsksForSources(query: string) {
    ContainsAny(Lower(query), ["source", "reference", "citation", "link", "docs", "url"])
  }

  lemma TokensIgnoreCase(t1: string, t2: string)
    requires Lower(t1) == Lower(t2)
    ensures Tokens(t1) == Tokens(t2) && ImportantPhrases(t1) == ImportantPhrases(t2)
  {}

  /** Every signal is read from the lower-cased query. */
  lemma SignalsIgnoreCase(q1: string, q2: string)
    requires Lower(q1) == Lower(q2)
    ensures ExpandQueryTerms(q1) == ExpandQueryTerms(q2)
    ensures ClassifyPrompt(q1) == ClassifyPrompt(q2)
    ensures forall intent :: RequiredSourceIds(q1, intent) == RequiredSourceIds(q2, intent)
    ensures AsksForSources(q1) == AsksForSources(q2)
    ensures Lower(QueryText(q1)) == Lower(QueryText(q2))
    ensures |QueryText(q1)| == |QueryText(q2)|
  {
    var terms := ExpandQueryTerms(q1);
    LowerJoin([q1] + terms, " ");
    LowerJoin([q2] + terms, " ");
    assert Map(Lower, [q1] + terms) == Map(Lower, [q2] + terms);
    assert |Lower(QueryText(q1))| == |QueryText(q1)|;
  }

  // What the signals mean

  /** The search text has the tokens of the query, then those of the expansion. */
  lemma QueryTextTokens(query: string)
    ensures Tokens(QueryText(query)) == Tokens(query) + FlatMap(Tokens, ExpandQueryTerms(query))
  {
    var terms := ExpandQueryTerms(query);
    assert ([query] + terms)[1..] == terms && ([query] + terms)[0] == query;
    JoinedTokens([query] + terms);
  }

  lemma {:induction false} JoinedTokens(ws: seq<string>)
    ensures Tokens(Join(ws, " ")) == FlatMap(Tokens, ws)
  {
    if |ws| == 1 {
      FlatMapOne(Tokens, ws[0]);
      assert ws == [ws[0]];
    } else if |ws| > 1 {
      var rest := Join(ws[1..], " ");
      JoinedTokens(ws[1..]);
      LowerAppend(ws[0] + " ", rest);
      LowerAppend(ws[0], " ");
      assert Lower(" ") == [' '];
      RunsSeparated(Lower(ws[0]), ' ', Lower(rest), IsWordChar);
    }
  }

  lemma ExpansionIff(query: string, term: string)
    ensures term in ExpandQueryTerms(query)
            <==> term != "" && exists r, t :: r in EXPANSION_RULES && ContainsAny(Lower(query), r.triggers)
                                              && t in r.terms && term == Strip(t)
  {}

  lemma NameIff(rules: seq<Rule>, lowered: string, name: string)
    ensures name in NamesOf(rules, lowered)
            <==> exists r :: r in rules && ContainsAny(lowered, r.triggers) && name == FirstTrigger(r)
  {
    MapMember(FirstTrigger, Filter((r: Rule) => ContainsAny(lowered, r.triggers), rules), name);
  }

  lemma MapMember<T, U>(f: T -> U, xs: seq<T>, y: U)
    ensures y in Map(f, xs) <==> exists x :: x in xs && y == f(x)
  {
    if x :| x in xs && y == f(x) {
      var i :| 0 <= i < |xs| && xs[i] == x;
      assert Map(f, xs)[i] == y;
    }
  }

  /** A phrase counts if it is the name of an alias that the text mentions, or an expanded term in lower case. */
  lemma PhraseIff(text: string, phrase: string)
    ensures phrase in ImportantPhrases(text)
            <==> phrase != ""
                 && ((exists r :: r in PRICE_ACTION_ALIASES && ContainsAny(Lower(text), r.triggers)
                                  && phrase == Strip(FirstTrigger(r)))
                     || (exists t :: t in ExpandLowered(Lower(text)) && phrase == Strip(Lower(t))))
  {
    PhraseParts(NamesOf(PRICE_ACTION_ALIASES, Lower(text)), Map(Lower, ExpandLowered(Lower(text))), phrase);
    var terms := ExpandLowered(Lower(text));
    forall v ensures v in Map(Lower, terms) <==> exists t :: t in terms && v == Lower(t) {
      MapMember(Lower, terms, v);
    }
    forall v
      ensures v in NamesOf(PRICE_ACTION_ALIASES, Lower(text))
              <==> exists r :: r in PRICE_ACTION_ALIASES && ContainsAny(Lower(text), r.triggers)
                               && v == FirstTrigger(r)
    {
      NameIff(PRICE_ACTION_ALIASES, Lower(text), v);
    }
  }

  lemma PhraseParts(names: seq<string>, terms: seq<string>, phrase: string)
    ensures phrase in Dedupe(names + terms)
            <==> phrase != ""
                 && ((exists v :: v in names && phrase == Strip(v)) || (exists v :: v in terms && phrase == Strip(v)))
  {}

  ghost predicate Mentioned(lowered: string, tag: string) {
    exists r, trigger :: r in TAG_RULES && tag in r.terms && trigger in r.triggers && Contains(lowered, trigger)
  }

  /** A query has the tags it mentions, both_platform when it mentions both, and a default when it mentions none. */
  lemma TagIff(query: string, tag: string)
    ensures var lowered := Lower(query);
            tag in ClassifyPrompt(query).tags
            <==> || Mentioned(lowered, tag)
                 || (tag == "both_platform" && Contains(lowered, "pine")
                     && ContainsAny(lowered, ["mql5", "mt5", "metatrader"]))
                 || (tag in ["price_action", "risk", "pine"] && forall t :: !Mentioned(lowered, t))
  {
    MentionedIff(Lower(query), tag);
    NoneMentioned(Lower(query));
    if ContainsAny(Lower(query), ["mql5", "mt5", "metatrader"]) {
      PlatformMentioned(Lower(query));
    }
  }

  lemma NoneMentioned(lowered: string)
    ensures Fired(TAG_RULES, lowered) == [] <==> forall t :: !Mentioned(lowered, t)
  {
    if Fired(TAG_RULES, lowered) != [] {
      MentionedIff(lowered, Fired(TAG_RULES, lowered)[0]);
    } else {
      forall t ensures !Mentioned(lowered, t) {
        MentionedIff(lowered, t);
      }
    }
  }

  lemma PlatformMentioned(lowered: string)
    requires ContainsAny(lowered, ["mql5", "mt5", "metatrader"])
    ensures Fired(TAG_RULES, lowered) != []
  {
    var trigger :| trigger in ["mql5", "mt5", "metatrader"] && Contains(lowered, trigger);
    assert TAG_RULES[4] in TAG_RULES && trigger in TAG_RULES[4].triggers && "mql5" in TAG_RULES[4].terms;
    assert Mentioned(lowered, "mql5");
    MentionedIff(lowered, "mql5");
  }

  lemma MentionedIff(lowered: string, tag: string)
    ensures tag in Fired(TAG_RULES, lowered) <==> Mentioned(lowered, tag)
  {
    if tag in Fired(TAG_RULES, lowered) {
      var r :| r in TAG_RULES && ContainsAny(lowered, r.triggers) && tag in r.terms;
    }
    if Mentioned(lowered, tag) {
      var r, trigger :| r in TAG_RULES && tag in r.terms && trigger in r.triggers && Contains(lowered, trigger);
      assert ContainsAny(lowered, r.triggers);
    }
  }

  /** The risk policy is required of queries about risk that claim safety or profit; each workflow by its triggers. */
  lemma RequiredIff(query: string, intent: Intent, i: nat)
    requires i < |WORKFLOW_SOURCES|
    ensures RISK_POLICY in RequiredSourceIds(query, intent)
            <==> "risk" in intent.tags && exists claim :: claim in RISK_CLAIMS && Contains(Lower(query), claim)
    ensures WORKFLOW_SOURCES[i] in RequiredSourceIds(query, intent)
            <==> exists t :: t in WORKFLOW_TRIGGERS[i] && Contains(Lower(query), t)
  {
    WorkflowSourcesDistinct();
    assert |WORKFLOW_TRIGGERS| == |WORKFLOW_SOURCES|;
    SourceFiredIff(WORKFLOW_TRIGGERS, WORKFLOW_SOURCES, Lower(query), i);
    assert WORKFLOW_SOURCES[i] in WORKFLOW_SOURCES;
  }
}
