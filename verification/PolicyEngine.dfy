/** The policy evaluator: which texts of a payload are read, which rules they break, and the verdict. */
module PolicyEngine {
  import opened Seqs
  import opened Text

  // Payloads and their fragments

  /** A JSON value; numbers, booleans and null carry no text. */
  datatype Json = Str(text: string) | Obj(fields: seq<(string, Json)>) | Arr(items: seq<Json>) | Scalar

  const SAFE_CONTEXT_KEYS := {"non_goals", "policy_observations"}

  /** A string of a payload, under the keys of the objects that hold it. */
  datatype Leaf = Leaf(path: seq<string>, text: string)

  /** All strings of a value, in order. */
  function Leaves(value: Json, path: seq<string>): seq<Leaf>
    decreases value
  {
    match value
    case Str(text) => [Leaf(path, text)]
    case Obj(fields) => FieldLeaves(value, |fields|, path)
    case Arr(items) => ItemLeaves(value, |items|, path)
    case Scalar => []
  }

  function FieldLeaves(value: Json, n: nat, path: seq<string>): seq<Leaf>
    requires value.Obj? && n <= |value.fields|
    decreases value, n
  {
    if n == 0 then []
    else FieldLeaves(value, n - 1, path) + Leaves(value.fields[n - 1].1, path + [value.fields[n - 1].0])
  }

  function ItemLeaves(value: Json, n: nat, path: seq<string>): seq<Leaf>
    requires value.Arr? && n <= |value.items|
    decreases value, n
  {
    if n == 0 then [] else ItemLeaves(value, n - 1, path) + Leaves(value.items[n - 1], path)
  }

  /** No safe context key above the string. */
  predicate Visible(l: Leaf) { forall k :: k in l.path ==> k !in SAFE_CONTEXT_KEYS }

  function TextOf(l: Leaf): string { l.text }

  function VisibleTexts(ls: seq<Leaf>): seq<string> { Map(TextOf, Filter(Visible, ls)) }

  lemma VisibleTextsAppend(a: seq<Leaf>, b: seq<Leaf>)
    ensures VisibleTexts(a + b) == VisibleTexts(a) + VisibleTexts(b)
  {
    FilterAppend(Visible, a, b);
  }

  lemma {:induction false} LeavesBelow(value: Json, path: seq<string>)
    ensures forall l :: l in Leaves(value, path) ==> path <= l.path
    decreases value
  {
    match value
    case Obj(fields) => FieldLeavesBelow(value, |fields|, path);
    case Arr(items) => ItemLeavesBelow(value, |items|, path);
    case _ =>
  }

  lemma {:induction false} FieldLeavesBelow(value: Json, n: nat, path: seq<string>)
    requires value.Obj? && n <= |value.fields|
    ensures forall l :: l in FieldLeaves(value, n, path) ==> path <= l.path
    decreases value, n
  {
    if n > 0 {
      FieldLeavesBelow(value, n - 1, path);
      LeavesBelow(value.fields[n - 1].1, path + [value.fields[n - 1].0]);
    }
  }

  lemma {:induction false} ItemLeavesBelow(value: Json, n: nat, path: seq<string>)
    requires value.Arr? && n <= |value.items|
    ensures forall l :: l in ItemLeaves(value, n, path) ==> path <= l.path
    decreases value, n
  {
    if n > 0 {
      ItemLeavesBelow(value, n - 1, path);
      LeavesBelow(value.items[n - 1], path);
    }
  }

  /** Nothing below a safe key is visible. */
  lemma SafeBelow(value: Json, path: seq<string>)
    requires path != [] && path[|path| - 1] in SAFE_CONTEXT_KEYS
    ensures VisibleTexts(Leaves(value, path)) == []
  {
    LeavesBelow(value, path);
    forall l | l in Leaves(value, path) ensures !Visible(l) {
      assert l.path[|path| - 1] == path[|path| - 1] && l.path[|path| - 1] in l.path;
    }
    FilterNone(Visible, Leaves(value, path));
  }

  /**
   * _collect_policy_fragments: appends exactly the visible strings of the value, in order. The path above the
   * value is that of the enclosing calls, whose own keys were not safe.
   */
  method CollectFragments(value: Json, fragments: seq<string>, key: Option<string>, ghost path: seq<string>)
    returns (r: seq<string>)
    requires key == if path == [] then None else Some(path[|path| - 1])
    requires forall i :: 0 <= i < |path| - 1 ==> path[i] !in SAFE_CONTEXT_KEYS
    ensures r == fragments + VisibleTexts(Leaves(value, path))
    decreases value
  {
    r := fragments;
    if key.Some? && key.value in SAFE_CONTEXT_KEYS {
      SafeBelow(value, path);
      return;
    }
    match value
    case Str(text) =>
      r := r + [text];
      var one := Leaf(path, text);
      assert Filter(Visible, [one]) == [one];
      assert Map(TextOf, [one]) == [text];
    case Obj(fields) =>
      r := CollectFields(value, r, path);
    case Arr(items) =>
      r := CollectItems(value, r, key, path);
    case Scalar =>
  }

  method CollectFields(value: Json, fragments: seq<string>, ghost path: seq<string>) returns (r: seq<string>)
    requires value.Obj? && forall k :: k in path ==> k !in SAFE_CONTEXT_KEYS
    ensures r == fragments + VisibleTexts(FieldLeaves(value, |value.fields|, path))
    decreases value, 1
  {
    r := fragments;
    for i := 0 to |value.fields|
      invariant r == fragments + VisibleTexts(FieldLeaves(value, i, path))
    {
      FieldStep(value, i, path);
      AppendAssoc(fragments, VisibleTexts(FieldLeaves(value, i, path)), FieldTexts(value, i, path));
      r := CollectField(value, i, r, path);
    }
  }

  method CollectField(value: Json, i: nat, fragments: seq<string>, ghost path: seq<string>) returns (r: seq<string>)
    requires value.Obj? && i < |value.fields| && forall k :: k in path ==> k !in SAFE_CONTEXT_KEYS
    ensures r == fragments + FieldTexts(value, i, path)
    decreases value, 0
  {
    r := CollectFragments(value.fields[i].1, fragments, Some(value.fields[i].0), path + [value.fields[i].0]);
  }

  method CollectItems(value: Json, fragments: seq<string>, key: Option<string>,
                      ghost path: seq<string>) returns (r: seq<string>)
    requires value.Arr? && forall k :: k in path ==> k !in SAFE_CONTEXT_KEYS
    requires key == if path == [] then None else Some(path[|path| - 1])
    ensures r == fragments + VisibleTexts(ItemLeaves(value, |value.items|, path))
    decreases value, 0
  {
    r := fragments;
    for i := 0 to |value.items|
      invariant r == fragments + VisibleTexts(ItemLeaves(value, i, path))
    {
      ItemStep(value, i, path);
      AppendAssoc(fragments, VisibleTexts(ItemLeaves(value, i, path)), VisibleTexts(Leaves(value.items[i], path)));
      r := CollectFragments(value.items[i], r, key, path);
    }
  }

  /** The visible strings of one field. */
  function FieldTexts(value: Json, i: nat, path: seq<string>): seq<string>
    requires value.Obj? && i < |value.fields|
  {
    VisibleTexts(Leaves(value.fields[i].1, path + [value.fields[i].0]))
  }

  lemma FieldStep(value: Json, i: nat, path: seq<string>)
    requires value.Obj? && i < |value.fields|
    ensures VisibleTexts(FieldLeaves(value, i + 1, path))
            == VisibleTexts(FieldLeaves(value, i, path)) + FieldTexts(value, i, path)
  {
    VisibleTextsAppend(FieldLeaves(value, i, path), Leaves(value.fields[i].1, path + [value.fields[i].0]));
  }

  lemma ItemStep(value: Json, i: nat, path: seq<string>)
    requires value.Arr? && i < |value.items|
    ensures VisibleTexts(ItemLeaves(value, i + 1, path))
            == VisibleTexts(ItemLeaves(value, i, path)) + VisibleTexts(Leaves(value.items[i], path))
  {
    VisibleTextsAppend(ItemLeaves(value, i, path), Leaves(value.items[i], path));
  }

  /** The values differ at most under safe context keys. */
  ghost predicate SameOutsideSafeKeys(a: Json, b: Json) {
    && a.Obj? && b.Obj? && |a.fields| == |b.fields|
    && forall i :: 0 <= i < |a.fields| ==>
         a.fields[i].0 == b.fields[i].0 && (a.fields[i].0 in SAFE_CONTEXT_KEYS || a.fields[i].1 == b.fields[i].1)
  }

  /** What a safe context key holds has no influence on the fragments. */
  lemma {:induction false} SafeFieldsIgnored(a: Json, b: Json, n: nat, path: seq<string>)
    requires SameOutsideSafeKeys(a, b) && n <= |a.fields|
    ensures VisibleTexts(FieldLeaves(a, n, path)) == VisibleTexts(FieldLeaves(b, n, path))
  {
    if n > 0 {
      SafeFieldsIgnored(a, b, n - 1, path);
      SafeFieldTexts(a, b, n - 1, path);
      SameStep(a, b, n - 1, path);
    }
  }

  lemma SameStep(a: Json, b: Json, i: nat, path: seq<string>)
    requires a.Obj? && b.Obj? && i < |a.fields| && i < |b.fields|
    requires VisibleTexts(FieldLeaves(a, i, path)) == VisibleTexts(FieldLeaves(b, i, path))
    requires FieldTexts(a, i, path) == FieldTexts(b, i, path)
    ensures VisibleTexts(FieldLeaves(a, i + 1, path)) == VisibleTexts(FieldLeaves(b, i + 1, path))
  {
    FieldStep(a, i, path);
    FieldStep(b, i, path);
  }

  lemma SafeFieldTexts(a: Json, b: Json, i: nat, path: seq<string>)
    requires SameOutsideSafeKeys(a, b) && i < |a.fields|
    ensures FieldTexts(a, i, path) == FieldTexts(b, i, path)
  {
    var f, g := a.fields[i], b.fields[i];
    if f.0 in SAFE_CONTEXT_KEYS {
      SafeBelow(f.1, path + [f.0]);
      SafeBelow(g.1, path + [f.0]);
    }
  }

  // Rules

  datatype Span = Span(start: nat, end: nat)

  /** A compiled pattern: all its matches in a text, in order. */
  type Regex = string -> seq<Span>

  datatype Rule = Rule(id: string, category: string, severity: string, code: string, message: string -> string,
                       block: seq<Regex>, allow: seq<Regex>, surfaces: seq<string>, levels: seq<string>)

  datatype Subject = Subject(surface: string, level: string)

  datatype Finding = Finding(ruleId: string, category: string, severity: string, code: string, message: string,
                             surface: string, level: string, matched: string, sentence: string)

  /** What the model takes as given: JSON parsing, the split into sentences, and the contrast-word pattern. */
  datatype Engine = Engine(parse: string -> Option<Json>, sentences: string -> seq<string>, contrast: string -> bool)

  function Slice(s: string, a: nat, b: nat): string { if a <= b <= |s| then s[a..b] else "" }

  /** _rule_applies */
  predicate Applies(rule: Rule, subject: Subject) {
    (rule.surfaces == [] || subject.surface in rule.surfaces) && (rule.levels == [] || subject.level in rule.levels)
  }

  /** The allow match holds the block match, with no contrast word between their starts. */
  predicate Excuses(e: Engine, sentence: string, allow: Span, block: Span) {
    allow.start <= block.start && block.end <= allow.end && !e.contrast(Slice(sentence, allow.start, block.start))
  }

  ghost predicate AllowedBy(e: Engine, sentence: string, block: Span, allows: seq<Regex>) {
    exists i, k :: 0 <= i < |allows| && 0 <= k < |allows[i](sentence)|
                   && Excuses(e, sentence, allows[i](sentence)[k], block)
  }

  /** _is_allowed_match */
  method IsAllowedMatch(e: Engine, sentence: string, block: Span, allows: seq<Regex>) returns (allowed: bool)
    ensures allowed <==> AllowedBy(e, sentence, block, allows)
  {
    for i := 0 to |allows|
      invariant !AllowedBy(e, sentence, block, allows[..i])
    {
      var matches := allows[i](sentence);
      for k := 0 to |matches|
        invariant forall m :: 0 <= m < k ==> !Excuses(e, sentence, matches[m], block)
      {
        var allow := matches[k];
        if !(allow.start <= block.start && block.end <= allow.end) {
          continue;
        }
        if e.contrast(Slice(sentence, allow.start, block.start)) {
          continue;
        }
        assert Excuses(e, sentence, allows[i](sentence)[k], block);
        return true;
      }
    }
    assert allows[..|allows|] == allows;
    return false;
  }

  /** The k-th block pattern's first match in the sentence is not excused. */
  ghost predicate Hits(e: Engine, rule: Rule, sentence: string, k: nat) {
    k < |rule.block| && rule.block[k](sentence) != [] && !AllowedBy(e, sentence, rule.block[k](sentence)[0], rule.allow)
  }

  /** The first block pattern from the k-th on that hits. */
  ghost function FirstHit(e: Engine, rule: Rule, sentence: string, k: nat): (r: Option<nat>)
    requires k <= |rule.block|
    ensures r.Some? ==> k <= r.value && Hits(e, rule, sentence, r.value)
    ensures forall j: nat :: k <= j && Hits(e, rule, sentence, j) ==> r.Some? && r.value <= j
    decreases |rule.block| - k
  {
    if k == |rule.block| then None
    else if Hits(e, rule, sentence, k) then Some(k)
    else FirstHit(e, rule, sentence, k + 1)
  }

  function Report(subject: Subject, rule: Rule, sentence: string, block: Span): Finding {
    var matched := Slice(sentence, block.start, block.end);
    Finding(rule.id, rule.category, rule.severity, rule.code, rule.message(matched), subject.surface, subject.level,
            matched, sentence)
  }

  /** What one rule reports about one sentence: at most one finding. */
  ghost function RuleFinding(e: Engine, subject: Subject, sentence: string, rule: Rule): Option<Finding> {
    if !Applies(rule, subject) then None
    else
      match FirstHit(e, rule, sentence, 0)
      case None => None
      case Some(k) => Some(Report(subject, rule, sentence, rule.block[k](sentence)[0]))
  }

  ghost function ByRule(e: Engine, subject: Subject, sentence: string): Rule -> Option<Finding> {
    (rule: Rule) => RuleFinding(e, subject, sentence, rule)
  }

  ghost function BySentence(e: Engine, subject: Subject, rules: seq<Rule>): string -> seq<Finding> {
    (sentence: string) => Collect(ByRule(e, subject, sentence), rules)
  }

  ghost function ByFragment(e: Engine, subject: Subject, rules: seq<Rule>): string -> seq<Finding> {
    (fragment: string) => FlatMap(BySentence(e, subject, rules), e.sentences(fragment))
  }

  /** The findings in the order of fragments, sentences and rules. */
  ghost function RawFindings(e: Engine, subject: Subject, rules: seq<Rule>, fragments: seq<string>): seq<Finding> {
    FlatMap(ByFragment(e, subject, rules), fragments)
  }

  /** The innermost loop: the first block pattern whose match is not allowed is reported, and ends the loop. */
  method EvaluateRule(e: Engine, subject: Subject, sentence: string, rule: Rule, findings: seq<Finding>)
    returns (r: seq<Finding>)
    ensures var f := RuleFinding(e, subject, sentence, rule);
            r == findings + if f.Some? then [f.value] else []
  {
    r := findings;
    if !Applies(rule, subject) {
      return;
    }
    for k := 0 to |rule.block|
      invariant r == findings && FirstHit(e, rule, sentence, 0) == FirstHit(e, rule, sentence, k)
    {
      var matches := rule.block[k](sentence);
      if matches == [] {
        continue;
      }
      var allowed := IsAllowedMatch(e, sentence, matches[0], rule.allow);
      if allowed {
        continue;
      }
      r := r + [Report(subject, rule, sentence, matches[0])];
      return;
    }
  }

  method EvaluateSentence(e: Engine, subject: Subject, rules: seq<Rule>, sentence: string, findings: seq<Finding>)
    returns (r: seq<Finding>)
    ensures r == findings + BySentence(e, subject, rules)(sentence)
  {
    r := findings;
    for j := 0 to |rules|
      invariant r == findings + Collect(ByRule(e, subject, sentence), rules[..j])
    {
      CollectSnoc(ByRule(e, subject, sentence), rules, j);
      r := EvaluateRule(e, subject, sentence, rules[j], r);
    }
    assert rules[..|rules|] == rules;
  }

  method EvaluateFragment(e: Engine, subject: Subject, rules: seq<Rule>, fragment: string, findings: seq<Finding>)
    returns (r: seq<Finding>)
    ensures r == findings + ByFragment(e, subject, rules)(fragment)
  {
    r := findings;
    var sentences := e.sentences(fragment);
    ghost var f := BySentence(e, subject, rules);
    for j := 0 to |sentences|
      invariant r == findings + FlatMap(f, sentences[..j])
    {
      FlatMapSnoc(f, sentences, j);
      AppendAssoc(findings, FlatMap(f, sentences[..j]), f(sentences[j]));
      r := EvaluateSentence(e, subject, rules, sentences[j], r);
    }
    assert sentences[..|sentences|] == sentences;
  }

  /** _evaluate_fragments */
  method EvaluateFragments(e: Engine, subject: Subject, rules: seq<Rule>, fragments: seq<string>)
    returns (findings: seq<Finding>)
    ensures findings == RawFindings(e, subject, rules, fragments)
  {
    findings := [];
    for i := 0 to |fragments|
      invariant findings == FlatMap(ByFragment(e, subject, rules), fragments[..i])
    {
      findings := EvaluateFragment(e, subject, rules, fragments[i], findings);
      FlatMapSnoc(ByFragment(e, subject, rules), fragments, i);
    }
    assert fragments[..|fragments|] == fragments;
  }

  // De-duplication

  function Key(f: Finding): (string, string, string) { (f.ruleId, f.sentence, Lower(f.matched)) }

  function Deduped(findings: seq<Finding>): seq<Finding> { FirstPerKey(Key, findings) }

  /** _dedupe_findings: a finding is kept exactly when no earlier one has its key. */
  method DedupeFindings(findings: seq<Finding>) returns (output: seq<Finding>)
    ensures output == Deduped(findings)
  {
    output := [];
    var seen: set<(string, string, string)> := {};
    for i := 0 to |findings|
      invariant output == Deduped(findings[..i])
      invariant forall k :: k in seen <==> k in Map(Key, output)
    {
      FirstPerKeySnoc(Key, findings, i);
      var key := Key(findings[i]);
      if key in seen {
        continue;
      }
      seen := seen + {key};
      assert Map(Key, output + [findings[i]]) == Map(Key, output) + [key];
      output := output + [findings[i]];
    }
    assert findings[..|findings|] == findings;
  }

  // The two entry points

  datatype Decision = Decision(allowed: bool, findings: seq<Finding>)

  predicate Blocker(f: Finding) { f.severity == "blocker" }

  ghost predicate AnyBlocker(findings: seq<Finding>) { exists f :: f in findings && Blocker(f) }

  /** _policy_text_fragments */
  function TextFragments(e: Engine, text: string): seq<string> {
    match e.parse(text)
    case None => [text]
    case Some(payload) => VisibleTexts(Leaves(payload, []))
  }

  /** _payload_fragments */
  function PayloadFragments(e: Engine, payload: Json): seq<string> {
    match payload
    case Str(text) => TextFragments(e, text)
    case _ => VisibleTexts(Leaves(payload, []))
  }

  ghost function Decide(e: Engine, subject: Subject, rules: seq<Rule>, payload: Json): Decision {
    var findings := Deduped(RawFindings(e, subject, rules, PayloadFragments(e, payload)));
    Decision(!AnyBlocker(findings), findings)
  }

  method FindBlocker(findings: seq<Finding>) returns (found: bool)
    ensures found <==> AnyBlocker(findings)
  {
    for i := 0 to |findings|
      invariant forall f :: f in findings[..i] ==> !Blocker(f)
    {
      if findings[i].severity == "blocker" {
        assert findings[i] in findings;
        return true;
      }
    }
    assert findings[..|findings|] == findings;
    return false;
  }

  method CollectText(e: Engine, text: string) returns (fragments: seq<string>)
    ensures fragments == TextFragments(e, text)
  {
    match e.parse(text)
    case None => fragments := [text];
    case Some(payload) => fragments := CollectFragments(payload, [], None, []);
  }

  method CollectPayload(e: Engine, payload: Json) returns (fragments: seq<string>)
    ensures fragments == PayloadFragments(e, payload)
  {
    if payload.Str? {
      fragments := CollectText(e, payload.text);
    } else {
      fragments := CollectFragments(payload, [], None, []);
    }
  }

  /** evaluate_policy */
  method EvaluatePolicy(e: Engine, subject: Subject, rules: seq<Rule>, payload: Json) returns (d: Decision)
    ensures d == Decide(e, subject, rules, payload)
  {
    var fragments := CollectPayload(e, payload);
    var raw := EvaluateFragments(e, subject, rules, fragments);
    var findings := DedupeFindings(raw);
    var blocked := FindBlocker(findings);
    d := Decision(!blocked, findings);
  }

  /** contains_blocking_policy */
  method ContainsBlockingPolicy(e: Engine, subject: Subject, rules: seq<Rule>, text: string) returns (blocked: bool)
    ensures blocked <==> AnyBlocker(RawFindings(e, subject, rules, TextFragments(e, text)))
  {
    var fragments := CollectText(e, text);
    var raw := EvaluateFragments(e, subject, rules, fragments);
    blocked := FindBlocker(raw);
  }

  // Verdicts

  function RuleId(r: Rule): string { r.id }

  /** Rules with one id are all blockers or none is; the loader's unique ids give this. */
  ghost predicate SeverityById(rules: seq<Rule>) {
    forall r, s :: r in rules && s in rules && r.id == s.id ==> (r.severity == "blocker" <==> s.severity == "blocker")
  }

  lemma UniqueIdsSuffice(rules: seq<Rule>)
    requires Distinct(Map(RuleId, rules))
    ensures SeverityById(rules)
  {
    forall r, s | r in rules && s in rules && r.id == s.id
      ensures r.severity == "blocker" <==> s.severity == "blocker"
    {
      KeyDetermines(RuleId, rules, r, s);
    }
  }

  /** Where a raw finding comes from. */
  lemma RawOrigin(e: Engine, subject: Subject, rules: seq<Rule>, fragments: seq<string>, f: Finding)
    ensures f in RawFindings(e, subject, rules, fragments)
            <==> exists fragment, sentence, rule ::
                   fragment in fragments && sentence in e.sentences(fragment) && rule in rules
                   && RuleFinding(e, subject, sentence, rule) == Some(f)
  {
    FlatMapMember(ByFragment(e, subject, rules), fragments, f);
    if f in RawFindings(e, subject, rules, fragments) {
      var fragment :| fragment in fragments && f in ByFragment(e, subject, rules)(fragment);
      FlatMapMember(BySentence(e, subject, rules), e.sentences(fragment), f);
      var sentence :| sentence in e.sentences(fragment) && f in BySentence(e, subject, rules)(sentence);
      var rule :| rule in rules && ByRule(e, subject, sentence)(rule) == Some(f);
      assert RuleFinding(e, subject, sentence, rule) == Some(f);
    }
    if exists fragment, sentence, rule :: fragment in fragments && sentence in e.sentences(fragment) && rule in rules
                                          && RuleFinding(e, subject, sentence, rule) == Some(f) {
      var fragment, sentence, rule :| fragment in fragments && sentence in e.sentences(fragment) && rule in rules
                                      && RuleFinding(e, subject, sentence, rule) == Some(f);
      FlatMapMember(BySentence(e, subject, rules), e.sentences(fragment), f);
      assert ByRule(e, subject, sentence)(rule) == Some(f);
      assert f in BySentence(e, subject, rules)(sentence);
      assert f in ByFragment(e, subject, rules)(fragment);
    }
  }

  /** De-duplication does not change the verdict. */
  lemma DedupeKeepsVerdict(e: Engine, subject: Subject, rules: seq<Rule>, fragments: seq<string>)
    requires SeverityById(rules)
    ensures AnyBlocker(RawFindings(e, subject, rules, fragments))
            <==> AnyBlocker(Deduped(RawFindings(e, subject, rules, fragments)))
  {
    var raw := RawFindings(e, subject, rules, fragments);
    if AnyBlocker(raw) {
      var f :| f in raw && Blocker(f);
      FirstPerKeyKeys(Key, raw);
      var i :| 0 <= i < |Deduped(raw)| && Key(Deduped(raw)[i]) == Key(f);
      var g := Deduped(raw)[i];
      assert g in Deduped(raw);
      SameRuleSeverity(e, subject, rules, fragments, f, g);
    }
  }

  lemma SameRuleSeverity(e: Engine, subject: Subject, rules: seq<Rule>, fragments: seq<string>, f: Finding, g: Finding)
    requires SeverityById(rules) && f.ruleId == g.ruleId
    requires f in RawFindings(e, subject, rules, fragments) && g in RawFindings(e, subject, rules, fragments)
    ensures Blocker(f) <==> Blocker(g)
  {
    RawOrigin(e, subject, rules, fragments, f);
    RawOrigin(e, subject, rules, fragments, g);
  }

  /** The early exit on raw findings and the full evaluation agree on every text. */
  lemma VerdictsAgree(e: Engine, subject: Subject, rules: seq<Rule>, text: string)
    requires Distinct(Map(RuleId, rules))
    ensures AnyBlocker(RawFindings(e, subject, rules, TextFragments(e, text)))
            <==> !Decide(e, subject, rules, Str(text)).allowed
  {
    UniqueIdsSuffice(rules);
    DedupeKeepsVerdict(e, subject, rules, TextFragments(e, text));
  }

  /** A sentence of a fragment breaks an applicable blocker rule. */
  ghost predicate Violated(e: Engine, subject: Subject, rules: seq<Rule>, fragments: seq<string>) {
    exists fragment, sentence, rule, k: nat ::
      fragment in fragments && sentence in e.sentences(fragment) && rule in rules
      && rule.severity == "blocker" && Applies(rule, subject) && Hits(e, rule, sentence, k)
  }

  /** The verdict, without findings or their order: a payload is refused exactly when it violates a blocker rule. */
  lemma VerdictMeaning(e: Engine, subject: Subject, rules: seq<Rule>, payload: Json)
    requires Distinct(Map(RuleId, rules))
    ensures !Decide(e, subject, rules, payload).allowed <==> Violated(e, subject, rules, PayloadFragments(e, payload))
  {
    UniqueIdsSuffice(rules);
    DedupeKeepsVerdict(e, subject, rules, PayloadFragments(e, payload));
    RawMeaning(e, subject, rules, PayloadFragments(e, payload));
  }

  lemma FindingMeaning(e: Engine, subject: Subject, sentence: string, rule: Rule)
    ensures (exists f :: RuleFinding(e, subject, sentence, rule) == Some(f) && Blocker(f))
            <==> rule.severity == "blocker" && Applies(rule, subject) && exists k: nat :: Hits(e, rule, sentence, k)
  {
    if Applies(rule, subject) && FirstHit(e, rule, sentence, 0).Some? {
      var k := FirstHit(e, rule, sentence, 0).value;
      assert Hits(e, rule, sentence, k);
      assert RuleFinding(e, subject, sentence, rule)
             == Some(Report(subject, rule, sentence, rule.block[k](sentence)[0]));
    }
  }

  lemma RawMeaning(e: Engine, subject: Subject, rules: seq<Rule>, fragments: seq<string>)
    ensures AnyBlocker(RawFindings(e, subject, rules, fragments)) <==> Violated(e, subject, rules, fragments)
  {
    if AnyBlocker(RawFindings(e, subject, rules, fragments)) {
      var f :| f in RawFindings(e, subject, rules, fragments) && Blocker(f);
      RawOrigin(e, subject, rules, fragments, f);
      var fragment, sentence, rule :| fragment in fragments && sentence in e.sentences(fragment) && rule in rules
                                      && RuleFinding(e, subject, sentence, rule) == Some(f);
      FindingMeaning(e, subject, sentence, rule);
    }
    if Violated(e, subject, rules, fragments) {
      var fragment, sentence, rule, k: nat :|
        fragment in fragments && sentence in e.sentences(fragment) && rule in rules
        && rule.severity == "blocker" && Applies(rule, subject) && Hits(e, rule, sentence, k);
      FindingMeaning(e, subject, sentence, rule);
      var f :| RuleFinding(e, subject, sentence, rule) == Some(f) && Blocker(f);
      RawOrigin(e, subject, rules, fragments, f);
    }
  }

  /** With one id for a warning and a blocker, the de-duplicated evaluation allows a text that the early exit blocks. */
  lemma SharedIdDisagrees(e: Engine, subject: Subject, warning: Rule, blocker: Rule, word: Regex, text: string)
    requires e.parse(text) == None && e.sentences(text) == [text]
    requires word(text) == [Span(0, |text|)]
    requires warning.block == [word] && warning.allow == [] && warning.surfaces == [] && warning.levels == []
    requires blocker == warning.(severity := "blocker") && warning.severity == "warning"
    ensures var rules := [warning, blocker];
            && Decide(e, subject, rules, Str(text)).allowed
            && AnyBlocker(RawFindings(e, subject, rules, TextFragments(e, text)))
  {
    var f, g := Report(subject, warning, text, Span(0, |text|)), Report(subject, blocker, text, Span(0, |text|));
    assert Hits(e, warning, text, 0) && Hits(e, blocker, text, 0);
    TwoRules(e, subject, warning, blocker, f, g, text);
    FirstOfPair(Key, f, g);
    assert g in [f, g] && Blocker(g);
    assert forall x :: x in [f] ==> x == f;
  }

  lemma TwoRules(e: Engine, subject: Subject, a: Rule, b: Rule, f: Finding, g: Finding, text: string)
    requires e.parse(text) == None && e.sentences(text) == [text]
    requires RuleFinding(e, subject, text, a) == Some(f) && RuleFinding(e, subject, text, b) == Some(g)
    ensures RawFindings(e, subject, [a, b], TextFragments(e, text)) == [f, g]
  {
    CollectPair(ByRule(e, subject, text), a, b);
    FlatMapOne(BySentence(e, subject, [a, b]), text);
    FlatMapOne(ByFragment(e, subject, [a, b]), text);
  }

  lemma CollectPair<T, U>(f: T -> Option<U>, x: T, y: T)
    requires f(x).Some? && f(y).Some?
    ensures Collect(f, [x, y]) == [f(x).value, f(y).value]
  {
    assert [x, y][1..] == [y] && [y][1..] == [];
    assert Collect(f, [y]) == [f(y).value];
  }

  lemma FirstOfPair<T, K>(key: T -> K, x: T, y: T)
    requires key(x) == key(y)
    ensures FirstPerKey(key, [x, y]) == [x]
  {
    assert [x, y][..1] == [x] && [x][..0] == [];
    assert FirstPerKey(key, [x]) == [x];
    assert Map(key, [x])[0] == key(y);
  }

  /** The loader's check of the rule ids: it raises unless there are no errors. */
  method DuplicateIds(rules: seq<Rule>) returns (errors: seq<string>)
    ensures errors == [] <==> Distinct(Map(RuleId, rules))
  {
    errors := [];
    var seen: set<string> := {};
    for i := 0 to |rules|
      invariant forall k :: k in seen <==> exists j :: 0 <= j < i && rules[j].id == k
      invariant errors == [] <==> Distinct(Map(RuleId, rules[..i]))
    {
      assert Map(RuleId, rules[..i + 1]) == Map(RuleId, rules[..i]) + [rules[i].id];
      DistinctAppend(Map(RuleId, rules[..i]), [rules[i].id]);
      if rules[i].id in seen {
        errors := errors + [rules[i].id];
      }
      seen := seen + {rules[i].id};
    }
    assert rules[..|rules|] == rules;
  }
}
