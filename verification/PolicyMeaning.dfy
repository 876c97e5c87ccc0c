/**
 * The policy verdict in terms of the payload itself: which strings are read, and which of their sentences refuse it.
 */
module PolicyMeaning {
  import opened Seqs
  import opened PolicyEngine

  // Walking down a value

  /** One step into a value: its i-th field or its i-th item. */
  datatype Step = Field(i: nat) | Item(i: nat)

  /** The string that the steps lead to, if any. */
  function TextAt(value: Json, steps: seq<Step>): Option<string>
    decreases steps
  {
    if steps == [] then if value.Str? then Some(value.text) else None
    else
      match steps[0]
      case Field(i) => if value.Obj? && i < |value.fields| then TextAt(value.fields[i].1, steps[1..]) else None
      case Item(i) => if value.Arr? && i < |value.items| then TextAt(value.items[i], steps[1..]) else None
  }

  /** The keys of the fields that the steps pass. */
  function KeysOn(value: Json, steps: seq<Step>): seq<string>
    decreases steps
  {
    if steps == [] then []
    else
      match steps[0]
      case Field(i) =>
        if value.Obj? && i < |value.fields| then [value.fields[i].0] + KeysOn(value.fields[i].1, steps[1..]) else []
      case Item(i) => if value.Arr? && i < |value.items| then KeysOn(value.items[i], steps[1..]) else []
  }

  lemma {:induction false} FieldLeafAt(value: Json, n: nat, path: seq<string>, l: Leaf)
    requires value.Obj? && n <= |value.fields|
    ensures l in FieldLeaves(value, n, path)
            <==> exists i: nat :: i < n && l in Leaves(value.fields[i].1, path + [value.fields[i].0])
    decreases n
  {
    if n > 0 {
      FieldLeafAt(value, n - 1, path, l);
    }
  }

  lemma {:induction false} ItemLeafAt(value: Json, n: nat, path: seq<string>, l: Leaf)
    requires value.Arr? && n <= |value.items|
    ensures l in ItemLeaves(value, n, path) <==> exists i: nat :: i < n && l in Leaves(value.items[i], path)
    decreases n
  {
    if n > 0 {
      ItemLeafAt(value, n - 1, path, l);
    }
  }

  /** Every listed string is reached by some steps, under the keys on the way. */
  lemma {:induction false} LeafReached(value: Json, path: seq<string>, l: Leaf) returns (steps: seq<Step>)
    requires l in Leaves(value, path)
    ensures TextAt(value, steps) == Some(l.text) && l.path == path + KeysOn(value, steps)
    decreases value
  {
    match value
    case Str(text) =>
      steps := [];
    case Obj(fields) =>
      FieldLeafAt(value, |fields|, path, l);
      var i: nat :| i < |fields| && l in Leaves(fields[i].1, path + [fields[i].0]);
      var rest := LeafReached(fields[i].1, path + [fields[i].0], l);
      steps := [Field(i)] + rest;
      assert steps[1..] == rest;
    case Arr(items) =>
      ItemLeafAt(value, |items|, path, l);
      var i: nat :| i < |items| && l in Leaves(items[i], path);
      var rest := LeafReached(items[i], path, l);
      steps := [Item(i)] + rest;
      assert steps[1..] == rest;
  }

  /** Every string that some steps reach is listed. */
  lemma {:induction false} ReachedLeaf(value: Json, path: seq<string>, steps: seq<Step>)
    requires TextAt(value, steps).Some?
    ensures Leaf(path + KeysOn(value, steps), TextAt(value, steps).value) in Leaves(value, path)
    decreases steps
  {
    var l := Leaf(path + KeysOn(value, steps), TextAt(value, steps).value);
    if steps == [] {
      assert path + [] == path;
    } else {
      match steps[0]
      case Field(i) =>
        ReachedLeaf(value.fields[i].1, path + [value.fields[i].0], steps[1..]);
        AppendAssoc(path, [value.fields[i].0], KeysOn(value.fields[i].1, steps[1..]));
        FieldLeafAt(value, |value.fields|, path, l);
      case Item(i) =>
        ReachedLeaf(value.items[i], path, steps[1..]);
        ItemLeafAt(value, |value.items|, path, l);
    }
  }

  // The verdict

  /** The rule blocks the sentence: the first match of some block pattern is held by no allow match without contrast. */
  ghost predicate Blocks(e: Engine, rule: Rule, sentence: string) {
    exists k: nat :: k < |rule.block| && rule.block[k](sentence) != []
                     && var hit := rule.block[k](sentence)[0];
                     forall i: nat, j: nat :: i < |rule.allow| && j < |rule.allow[i](sentence)| ==>
                       var held := rule.allow[i](sentence)[j];
                       held.start > hit.start || hit.end > held.end
                       || e.contrast(Slice(sentence, held.start, hit.start))
  }

  /** Some sentence of the text is blocked by a blocker rule for this surface and level. */
  ghost predicate Refused(e: Engine, subject: Subject, rules: seq<Rule>, text: string) {
    exists sentence, rule :: sentence in e.sentences(text) && rule in rules && rule.severity == "blocker"
                             && (rule.surfaces == [] || subject.surface in rule.surfaces)
                             && (rule.levels == [] || subject.level in rule.levels)
                             && Blocks(e, rule, sentence)
  }

  /** Some string of the value is refused that is not under a safe context key. */
  ghost predicate RefusedBelow(e: Engine, subject: Subject, rules: seq<Rule>, value: Json) {
    exists steps :: TextAt(value, steps).Some? && Refused(e, subject, rules, TextAt(value, steps).value)
                    && "non_goals" !in KeysOn(value, steps) && "policy_observations" !in KeysOn(value, steps)
  }

  lemma BlocksIffHits(e: Engine, rule: Rule, sentence: string)
    ensures Blocks(e, rule, sentence) <==> exists k: nat :: Hits(e, rule, sentence, k)
  {
    forall k: nat | k < |rule.block| && rule.block[k](sentence) != []
      ensures Hits(e, rule, sentence, k)
              <==> (var hit := rule.block[k](sentence)[0];
                    forall i: nat, j: nat :: i < |rule.allow| && j < |rule.allow[i](sentence)| ==>
                      var held := rule.allow[i](sentence)[j];
                      held.start > hit.start || hit.end > held.end
                      || e.contrast(Slice(sentence, held.start, hit.start)))
    {
      NotAllowed(e, sentence, rule.block[k](sentence)[0], rule.allow);
    }
  }

  lemma NotAllowed(e: Engine, sentence: string, hit: Span, allow: seq<Regex>)
    ensures !AllowedBy(e, sentence, hit, allow)
            <==> forall i: nat, j: nat :: i < |allow| && j < |allow[i](sentence)| ==>
                   var held := allow[i](sentence)[j];
                   held.start > hit.start || hit.end > held.end || e.contrast(Slice(sentence, held.start, hit.start))
  {
    if AllowedBy(e, sentence, hit, allow) {
      var i, j :| 0 <= i < |allow| && 0 <= j < |allow[i](sentence)| && Excuses(e, sentence, allow[i](sentence)[j], hit);
      var held := allow[i](sentence)[j];
      assert held.start <= hit.start && hit.end <= held.end;
    }
  }

  lemma ViolatedIff(e: Engine, subject: Subject, rules: seq<Rule>, fragments: seq<string>)
    ensures Violated(e, subject, rules, fragments) <==>
              exists text :: text in fragments && Refused(e, subject, rules, text)
  {
    if Violated(e, subject, rules, fragments) {
      var text, sentence, rule, k: nat :|
        text in fragments && sentence in e.sentences(text) && rule in rules
        && rule.severity == "blocker" && Applies(rule, subject) && Hits(e, rule, sentence, k);
      BlocksIffHits(e, rule, sentence);
      assert Refused(e, subject, rules, text);
    }
    if text :| text in fragments && Refused(e, subject, rules, text) {
      var sentence, rule :| sentence in e.sentences(text) && rule in rules && rule.severity == "blocker"
                            && (rule.surfaces == [] || subject.surface in rule.surfaces)
                            && (rule.levels == [] || subject.level in rule.levels)
                            && Blocks(e, rule, sentence);
      BlocksIffHits(e, rule, sentence);
      var k: nat :| Hits(e, rule, sentence, k);
      assert Applies(rule, subject);
    }
  }

  lemma VisibleReached(value: Json, text: string)
    ensures text in VisibleTexts(Leaves(value, []))
            <==> exists steps :: TextAt(value, steps) == Some(text)
                                 && "non_goals" !in KeysOn(value, steps)
                                 && "policy_observations" !in KeysOn(value, steps)
  {
    var leaves := Leaves(value, []);
    var shown := Filter(Visible, leaves);
    if text in VisibleTexts(leaves) {
      var i :| 0 <= i < |shown| && shown[i].text == text;
      assert shown[i] in leaves && Visible(shown[i]);
      var steps := LeafReached(value, [], shown[i]);
      assert [] + KeysOn(value, steps) == KeysOn(value, steps);
    }
    if steps :| TextAt(value, steps) == Some(text)
                && "non_goals" !in KeysOn(value, steps) && "policy_observations" !in KeysOn(value, steps) {
      ReachedLeaf(value, [], steps);
      assert [] + KeysOn(value, steps) == KeysOn(value, steps);
      var l := Leaf(KeysOn(value, steps), text);
      assert l in leaves && Visible(l);
      var i :| 0 <= i < |shown| && shown[i] == l;
      assert VisibleTexts(leaves)[i] == text;
    }
  }

  lemma BelowIff(e: Engine, subject: Subject, rules: seq<Rule>, value: Json)
    ensures RefusedBelow(e, subject, rules, value)
            <==> exists text :: text in VisibleTexts(Leaves(value, [])) && Refused(e, subject, rules, text)
  {
    forall text ensures text in VisibleTexts(Leaves(value, []))
                        <==> exists steps :: TextAt(value, steps) == Some(text)
                                             && "non_goals" !in KeysOn(value, steps)
                                             && "policy_observations" !in KeysOn(value, steps)
    {
      VisibleReached(value, text);
    }
  }

  /**
   * The verdict on a payload. A string is parsed first: if that fails, the text itself is judged. Otherwise, and for
   * every other payload, it is refused exactly when some string in it, at any depth and not under a safe context key,
   * has a sentence that a blocker rule for this surface and level blocks.
   */
  lemma VerdictIff(e: Engine, subject: Subject, rules: seq<Rule>, payload: Json)
    requires Distinct(Map(RuleId, rules))
    ensures !payload.Str? ==>
              (!Decide(e, subject, rules, payload).allowed <==> RefusedBelow(e, subject, rules, payload))
    ensures payload.Str? && e.parse(payload.text).Some? ==>
              (!Decide(e, subject, rules, payload).allowed
               <==> RefusedBelow(e, subject, rules, e.parse(payload.text).value))
    ensures payload.Str? && e.parse(payload.text).None? ==>
              (!Decide(e, subject, rules, payload).allowed <==> Refused(e, subject, rules, payload.text))
  {
    VerdictMeaning(e, subject, rules, payload);
    ViolatedIff(e, subject, rules, PayloadFragments(e, payload));
    if !payload.Str? {
      BelowIff(e, subject, rules, payload);
    } else if e.parse(payload.text).Some? {
      BelowIff(e, subject, rules, e.parse(payload.text).value);
    }
  }

  /** The early exit gives the same verdict on a text. */
  lemma EarlyVerdictIff(e: Engine, subject: Subject, rules: seq<Rule>, text: string)
    requires Distinct(Map(RuleId, rules))
    ensures AnyBlocker(RawFindings(e, subject, rules, TextFragments(e, text)))
            <==> match e.parse(text)
                 case Some(value) => RefusedBelow(e, subject, rules, value)
                 case None => Refused(e, subject, rules, text)
  {
    VerdictsAgree(e, subject, rules, text);
    VerdictIff(e, subject, rules, Str(text));
  }

  /** What a finding says: the rule, the sentence, and the first match of a block pattern in it. */
  lemma FindingSays(e: Engine, subject: Subject, rules: seq<Rule>, payload: Json, f: Finding)
    requires f in Decide(e, subject, rules, payload).findings
    ensures exists text, rule, k: nat ::
              && text in PayloadFragments(e, payload) && f.sentence in e.sentences(text) && rule in rules
              && k < |rule.block| && rule.block[k](f.sentence) != []
              && var hit := rule.block[k](f.sentence)[0];
              && (hit.start <= hit.end <= |f.sentence| ==> f.matched == f.sentence[hit.start..hit.end])
              && f.ruleId == rule.id && f.category == rule.category
              && f.severity == rule.severity && f.code == rule.code
              && f.message == rule.message(f.matched) && f.surface == subject.surface && f.level == subject.level
  {
    var raw := RawFindings(e, subject, rules, PayloadFragments(e, payload));
    assert f in raw;
    RawOrigin(e, subject, rules, PayloadFragments(e, payload), f);
    var text, sentence, rule :| text in PayloadFragments(e, payload) && sentence in e.sentences(text) && rule in rules
                                && RuleFinding(e, subject, sentence, rule) == Some(f);
    var k := FirstHit(e, rule, sentence, 0).value;
    assert f == Report(subject, rule, sentence, rule.block[k](sentence)[0]);
    assert Hits(e, rule, sentence, k);
  }
}
