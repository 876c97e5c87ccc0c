/** _chunk_text: cutting an item's text into overlapping sections along headings and blank lines. */
module Chunker {
  import opened Seqs
  import opened Text

  datatype Section = Section(text: string, sectionTitle: string, parentTitle: string, sectionPath: string, kind: string)

  const OVERVIEW := "overview"
  const BLANK_LINE := "\n\n"

  // The parts of a text

  predicate IsLineBreak(c: char) {
    '\n' <= c <= '\r' || '\U{1c}' <= c <= '\U{1e}'
  }

  predicate NotLineBreak(c: char) { !IsLineBreak(c) }

  /** str.splitlines() */
  function SplitLines(s: string): seq<string>
    decreases |s|
  {
    if s == "" then []
    else
      var n := RunLength(s, NotLineBreak);
      if n == |s| then [s]
      else [s[..n]] + SplitLines(if s[n] == '\r' && n + 1 < |s| && s[n + 1] == '\n' then s[n + 2..] else s[n + 1..])
  }

  function NormalizeLines(text: string): string {
    Join(Map(RightStrip, SplitLines(Strip(text))), "\n")
  }

  predicate SpaceAt(s: string, i: nat) { i < |s| && IsSpace(s[i]) }

  predicate HashAt(s: string, i: nat) { i < |s| && s[i] == '#' }

  predicate IsNewline(c: char) { c == '\n' }

  /** Length of the separator at position i: a newline before a level 1 or 2 heading, or a run of newlines. */
  function SeparatorLength(s: string, i: nat): (n: nat)
    requires i < |s|
    ensures n <= |s| - i
  {
    if s[i] != '\n' then 0
    else if HashAt(s, i + 1) && (SpaceAt(s, i + 2) || (HashAt(s, i + 2) && SpaceAt(s, i + 3))) then 1
    else if RunLength(s[i..], IsNewline) >= 2 then RunLength(s[i..], IsNewline)
    else 0
  }

  /** re.split on the separators, from position i of a part that began at `start`. */
  function SplitFrom(s: string, start: nat, i: nat): seq<string>
    requires start <= i <= |s|
    decreases |s| - i
  {
    if i == |s| then [s[start..]]
    else
      var n := SeparatorLength(s, i);
      if n > 0 then [s[start..i]] + SplitFrom(s, i + n, i + n) else SplitFrom(s, start, i + 1)
  }

  predicate NonEmpty(s: string) { s != "" }

  /** The stripped, non-blank parts of a text; an empty normalised text has none. */
  function Parts(text: string): (r: seq<string>)
    ensures forall p :: p in r ==> Trimmed(p)
  {
    var raw := SplitFrom(NormalizeLines(text), 0, 0);
    StrippedParts(raw);
    Filter(NonEmpty, Map(Strip, raw))
  }

  // Headings

  predicate IsHash(c: char) { c == '#' }

  function HeadingLevel(part: string): nat { RunLength(part, IsHash) }

  /** One to three hashes followed by white space open a heading. */
  predicate IsHeading(part: string) {
    1 <= HeadingLevel(part) <= 3 && SpaceAt(part, HeadingLevel(part))
  }

  predicate NotNewline(c: char) { c != '\n' }

  function HeadingTitle(part: string): string
    requires IsHeading(part)
  {
    var rest := LeftStrip(part[HeadingLevel(part)..]);
    Strip(rest[..RunLength(rest, NotNewline)])
  }

  function TitleAfter(title: string, part: string): string {
    if IsHeading(part) then HeadingTitle(part) else title
  }

  function ParentAfter(parent: string, part: string): string {
    if IsHeading(part) && HeadingLevel(part) <= 2 then HeadingTitle(part) else parent
  }

  /** The nearest heading at or before the end of `parts`. */
  function TitleOf(parts: seq<string>): string {
    if parts == [] then OVERVIEW else TitleAfter(TitleOf(parts[..|parts| - 1]), parts[|parts| - 1])
  }

  function ParentOf(parts: seq<string>): string {
    if parts == [] then OVERVIEW else ParentAfter(ParentOf(parts[..|parts| - 1]), parts[|parts| - 1])
  }

  // Slugs and sections

  predicate IsSlugChar(c: char) { 'a' <= c <= 'z' || IsDigit(c) }

  /** _slug: the runs of [a-z0-9] joined by hyphens. */
  function Slug(text: string): string { Join(Runs(Lower(text), IsSlugChar), "-") }

  function Or(s: string, fallback: string): string { if s != "" then s else fallback }

  function MakeSection(text: string, title: string, parent: string, counter: nat): Section {
    Section(text, Or(title, OVERVIEW), Or(parent, Or(title, OVERVIEW)),
            NatText(counter) + "-" + Slug(parent) + "-" + Slug(title),
            if title != OVERVIEW then "section" else OVERVIEW)
  }

  // Reference semantics: groups of whole parts

  /** The parts that make up one chunk, and the overlap carried over from the chunk before it. */
  datatype Group = Group(overlap: string, bodies: seq<string>)

  /** `part[:max_chars].strip()` */
  function Clip(part: string, maxChars: nat): string { Strip(Head(part, maxChars)) }

  function ClipAll(parts: seq<string>, maxChars: nat): (r: seq<string>)
    ensures |r| == |parts| && forall i :: 0 <= i < |parts| ==> r[i] == Clip(parts[i], maxChars)
  {
    Map((p: string) => Clip(p, maxChars), parts)
  }

  /** The overlap, if any, and the clipped parts. */
  function Shown(g: Group, maxChars: nat): seq<string> {
    (if g.overlap == "" then [] else [g.overlap]) + ClipAll(g.bodies, maxChars)
  }

  function Render(g: Group, maxChars: nat): string { Join(Shown(g, maxChars), BLANK_LINE) }

  /** What the next chunk repeats of a chunk that had to be closed for lack of room. */
  function OverlapOf(text: string, overlapChars: nat): string {
    if overlapChars > 0 && |text| > overlapChars then Strip(text[|text| - overlapChars..]) else ""
  }

  const NO_GROUP := Group("", [])

  datatype Grouping = Grouping(closed: seq<Group>, open: Group)

  function Close(g: Grouping): seq<Group> {
    if g.open.bodies == [] then g.closed else g.closed + [g.open]
  }

  function Place(g: Grouping, part: string, maxChars: nat, overlapChars: nat): Grouping {
    var shown := Render(g.open, maxChars);
    if |shown| + |part| + 2 <= maxChars then Grouping(g.closed, Group(g.open.overlap, g.open.bodies + [part]))
    else Grouping(Close(g), Group(OverlapOf(shown, overlapChars), [part]))
  }

  /** A heading closes the open group and starts afresh; a part that does not fit closes it and overlaps it. */
  function AddPart(g: Grouping, part: string, maxChars: nat, overlapChars: nat): Grouping {
    Place(if IsHeading(part) then Grouping(Close(g), NO_GROUP) else g, part, maxChars, overlapChars)
  }

  function Grouped(parts: seq<string>, maxChars: nat, overlapChars: nat): Grouping {
    if parts == [] then Grouping([], NO_GROUP)
    else AddPart(Grouped(parts[..|parts| - 1], maxChars, overlapChars), parts[|parts| - 1], maxChars, overlapChars)
  }

  function Groups(parts: seq<string>, maxChars: nat, overlapChars: nat): seq<Group> {
    Close(Grouped(parts, maxChars, overlapChars))
  }

  function Flatten(groups: seq<Group>): seq<string> {
    if groups == [] then [] else Flatten(groups[..|groups| - 1]) + groups[|groups| - 1].bodies
  }

  /** The section of the last group: numbered from one, titled by the nearest heading. */
  function LastSection(groups: seq<Group>, maxChars: nat): Section
    requires groups != []
  {
    var parts := Flatten(groups);
    MakeSection(Render(groups[|groups| - 1], maxChars), TitleOf(parts), ParentOf(parts), |groups|)
  }

  function Sections(groups: seq<Group>, maxChars: nat): (r: seq<Section>)
    ensures |r| == |groups|
  {
    if groups == [] then [] else Sections(groups[..|groups| - 1], maxChars) + [LastSection(groups, maxChars)]
  }

  /** _chunk_text with its default sizes, as a function. */
  function ChunkText(text: string): seq<Section> {
    Sections(Groups(Parts(text), 1200, 120), 1200)
  }

  // Rendering facts

  lemma ClipTrimmed(part: string, maxChars: nat)
    requires Trimmed(part) && maxChars > 0
    ensures Trimmed(Clip(part, maxChars)) && |Clip(part, maxChars)| <= maxChars
    ensures |part| <= maxChars ==> Clip(part, maxChars) == part
  {
    var head := Head(part, maxChars);
    assert head[0] == part[0] && LeftStrip(head) == head;
    RightStripNonEmpty(head);
  }

  lemma {:induction false} JoinTrimmed(ws: seq<string>)
    requires ws != [] && forall w :: w in ws ==> Trimmed(w)
    ensures Trimmed(Join(ws, BLANK_LINE))
  {
    assert ws[0] in ws;
    if |ws| > 1 {
      assert forall w :: w in ws[1..] ==> w in ws;
      JoinTrimmed(ws[1..]);
    }
  }

  lemma {:induction false} JoinSnoc(ws: seq<string>, w: string, sep: string)
    ensures Join(ws + [w], sep) == if ws == [] then w else Join(ws, sep) + sep + w
  {
    if ws != [] {
      assert (ws + [w])[1..] == ws[1..] + [w];
      JoinSnoc(ws[1..], w, sep);
      if |ws| == 1 {
        assert ws[1..] + [w] == [w];
      } else {
        assert ws[0] + sep + (Join(ws[1..], sep) + sep + w) == Join(ws, sep) + sep + w;
      }
    }
  }

  /** Whole-part groups: the shape every group keeps. */
  ghost predicate GoodGroup(g: Group) {
    && g.bodies != []
    && (forall p :: p in g.bodies ==> Trimmed(p))
    && (g.overlap == "" || Trimmed(g.overlap))
    && (forall k :: 0 <= k < |g.bodies| && IsHeading(g.bodies[k]) ==> k == 0 && g.overlap == "")
  }

  lemma RenderAppend(g: Group, part: string, maxChars: nat)
    ensures Render(Group(g.overlap, g.bodies + [part]), maxChars)
            == if Shown(g, maxChars) == [] then Clip(part, maxChars)
               else Render(g, maxChars) + BLANK_LINE + Clip(part, maxChars)
  {
    SnocByElements(ClipAll(g.bodies + [part], maxChars), ClipAll(g.bodies, maxChars), Clip(part, maxChars));
    AppendSnoc(if g.overlap == "" then [] else [g.overlap], ClipAll(g.bodies, maxChars), Clip(part, maxChars));
    JoinSnoc(Shown(g, maxChars), Clip(part, maxChars), BLANK_LINE);
  }

  lemma ShownTrimmed(g: Group, maxChars: nat)
    requires maxChars > 0 && GoodGroup(g)
    ensures Shown(g, maxChars) != [] && forall w :: w in Shown(g, maxChars) ==> Trimmed(w)
  {
    forall w | w in ClipAll(g.bodies, maxChars) ensures Trimmed(w) {
      var i :| 0 <= i < |g.bodies| && w == Clip(g.bodies[i], maxChars);
      assert g.bodies[i] in g.bodies;
      ClipTrimmed(g.bodies[i], maxChars);
    }
  }

  lemma JoinHead(ws: seq<string>, sep: string)
    requires ws != []
    ensures ws[0] <= Join(ws, sep)
  {
    if |ws| > 1 {
      assert Join(ws, sep) == ws[0] + sep + Join(ws[1..], sep);
      assert ws[0] + sep + Join(ws[1..], sep) == ws[0] + (sep + Join(ws[1..], sep));
    }
  }

  lemma RenderTrimmed(g: Group, maxChars: nat)
    requires maxChars > 0 && GoodGroup(g)
    ensures Trimmed(Render(g, maxChars)) && g.overlap <= Render(g, maxChars)
  {
    ShownTrimmed(g, maxChars);
    JoinTrimmed(Shown(g, maxChars));
    if g.overlap != "" {
      assert Shown(g, maxChars)[0] == g.overlap;
      JoinHead(Shown(g, maxChars), BLANK_LINE);
    }
  }

  lemma RenderSnoc(g: Group, part: string, maxChars: nat)
    requires maxChars > 0 && Trimmed(part) && (g == NO_GROUP || GoodGroup(g))
    ensures Render(Group(g.overlap, g.bodies + [part]), maxChars)
            == if g == NO_GROUP then Clip(part, maxChars)
               else Render(g, maxChars) + BLANK_LINE + Clip(part, maxChars)
    ensures g != NO_GROUP ==> Trimmed(Render(g, maxChars))
  {
    RenderAppend(g, part, maxChars);
    if g != NO_GROUP {
      ShownTrimmed(g, maxChars);
      RenderTrimmed(g, maxChars);
    }
  }

  // What the grouping keeps

  lemma StripOfTail(tail: string)
    requires tail != "" && !IsSpace(tail[|tail| - 1])
    ensures Trimmed(Strip(tail)) && EndsWith(tail, Strip(tail))
  {
    LeftStripKeepsEnd(tail);
    var left := LeftStrip(tail);
    assert RightStrip(left) == left;
    assert Strip(tail) == left;
  }

  lemma OverlapIsSuffix(text: string, overlapChars: nat)
    requires Trimmed(text)
    ensures |OverlapOf(text, overlapChars)| <= overlapChars && EndsWith(text, OverlapOf(text, overlapChars))
    ensures OverlapOf(text, overlapChars) == "" || Trimmed(OverlapOf(text, overlapChars))
    ensures OverlapOf(text, overlapChars) != "" <==> 0 < overlapChars < |text|
  {
    if 0 < overlapChars < |text| {
      var tail := text[|text| - overlapChars..];
      assert tail[|tail| - 1] == text[|text| - 1];
      StripOfTail(tail);
      EndsWithTransitive(text, tail, Strip(tail));
    }
  }

  lemma {:induction false} LeftStripKeepsEnd(s: string)
    requires s != "" && !IsSpace(s[|s| - 1])
    ensures LeftStrip(s) != "" && LeftStrip(s)[|LeftStrip(s)| - 1] == s[|s| - 1] && EndsWith(s, LeftStrip(s))
  {
    if IsSpace(s[0]) {
      LeftStripKeepsEnd(s[1..]);
      EndsWithTransitive(s, s[1..], LeftStrip(s));
    }
  }

  /** Bounded size, and an overlap that repeats the end of the chunk before. */
  ghost predicate Linked(groups: seq<Group>, i: nat, maxChars: nat, overlapChars: nat)
    requires i < |groups|
  {
    && |Render(groups[i], maxChars)| <= maxChars + overlapChars + 2
    && (groups[i].overlap != "" ==>
          i > 0 && groups[i].overlap == OverlapOf(Render(groups[i - 1], maxChars), overlapChars))
  }

  ghost predicate WellGrouped(groups: seq<Group>, maxChars: nat, overlapChars: nat) {
    groups == []
    || (WellGrouped(groups[..|groups| - 1], maxChars, overlapChars)
        && GoodGroup(groups[|groups| - 1]) && Linked(groups, |groups| - 1, maxChars, overlapChars))
  }

  lemma {:induction false} WellGroupedAt(groups: seq<Group>, i: nat, maxChars: nat, overlapChars: nat)
    requires WellGrouped(groups, maxChars, overlapChars) && i < |groups|
    ensures GoodGroup(groups[i]) && Linked(groups, i, maxChars, overlapChars)
  {
    if i < |groups| - 1 {
      WellGroupedAt(groups[..|groups| - 1], i, maxChars, overlapChars);
    }
  }

  ghost predicate GroupingInv(g: Grouping, parts: seq<string>, maxChars: nat, overlapChars: nat) {
    && WellGrouped(Close(g), maxChars, overlapChars)
    && Flatten(Close(g)) == parts
    && (g.open.bodies == [] ==> g.open == NO_GROUP)
  }

  lemma GoodSnoc(g: Group, part: string)
    requires Trimmed(part) && (g == NO_GROUP || (GoodGroup(g) && !IsHeading(part)))
    ensures GoodGroup(Group(g.overlap, g.bodies + [part]))
  {}

  lemma WellGroupedSnoc(groups: seq<Group>, g: Group, maxChars: nat, overlapChars: nat)
    requires WellGrouped(groups, maxChars, overlapChars) && GoodGroup(g)
    requires |Render(g, maxChars)| <= maxChars + overlapChars + 2
    requires g.overlap != "" ==>
               groups != [] && g.overlap == OverlapOf(Render(groups[|groups| - 1], maxChars), overlapChars)
    ensures WellGrouped(groups + [g], maxChars, overlapChars)
  {
    assert (groups + [g])[..|groups|] == groups;
  }

  lemma FlattenSnoc(groups: seq<Group>, g: Group)
    ensures Flatten(groups + [g]) == Flatten(groups) + g.bodies
  {
    assert (groups + [g])[..|groups|] == groups;
  }

  lemma WellGroupedInit(groups: seq<Group>, g: Group, maxChars: nat, overlapChars: nat)
    requires WellGrouped(groups + [g], maxChars, overlapChars)
    ensures WellGrouped(groups, maxChars, overlapChars) && GoodGroup(g)
    ensures g.overlap != "" ==>
              groups != [] && g.overlap == OverlapOf(Render(groups[|groups| - 1], maxChars), overlapChars)
  {
    assert (groups + [g])[..|groups|] == groups;
  }

  /** The part fits into the open group. */
  lemma PlaceFits(g: Grouping, part: string, seen: seq<string>, maxChars: nat, overlapChars: nat)
    requires maxChars > 0 && GroupingInv(g, seen, maxChars, overlapChars) && Trimmed(part)
    requires IsHeading(part) ==> g.open == NO_GROUP
    requires |Render(g.open, maxChars)| + |part| + 2 <= maxChars
    ensures GroupingInv(Grouping(g.closed, Group(g.open.overlap, g.open.bodies + [part])), seen + [part],
                        maxChars, overlapChars)
  {
    var grown := Group(g.open.overlap, g.open.bodies + [part]);
    OpenFacts(g, seen, maxChars, overlapChars);
    GoodSnoc(g.open, part);
    GrownSize(g.open, part, maxChars);
    Opened(g.closed, grown, Flatten(g.closed), maxChars, overlapChars);
    AppendSnoc(Flatten(g.closed), g.open.bodies, part);
  }

  lemma Opened(closed: seq<Group>, open: Group, before: seq<string>, maxChars: nat, overlapChars: nat)
    requires WellGrouped(closed, maxChars, overlapChars) && Flatten(closed) == before && GoodGroup(open)
    requires |Render(open, maxChars)| <= maxChars + overlapChars + 2
    requires open.overlap != "" ==>
               closed != [] && open.overlap == OverlapOf(Render(closed[|closed| - 1], maxChars), overlapChars)
    ensures GroupingInv(Grouping(closed, open), before + open.bodies, maxChars, overlapChars)
  {
    WellGroupedSnoc(closed, open, maxChars, overlapChars);
    FlattenSnoc(closed, open);
  }

  lemma OpenFacts(g: Grouping, seen: seq<string>, maxChars: nat, overlapChars: nat)
    requires GroupingInv(g, seen, maxChars, overlapChars)
    ensures WellGrouped(g.closed, maxChars, overlapChars) && Flatten(g.closed) + g.open.bodies == seen
    ensures g.open == NO_GROUP || GoodGroup(g.open)
    ensures g.open.overlap != "" ==>
              g.closed != [] && g.open.overlap == OverlapOf(Render(g.closed[|g.closed| - 1], maxChars), overlapChars)
  {
    if g.open != NO_GROUP {
      WellGroupedInit(g.closed, g.open, maxChars, overlapChars);
      FlattenSnoc(g.closed, g.open);
    }
  }

  lemma GrownSize(g: Group, part: string, maxChars: nat)
    requires maxChars > 0 && Trimmed(part) && (g == NO_GROUP || GoodGroup(g))
    requires |Render(g, maxChars)| + |part| + 2 <= maxChars
    ensures |Render(Group(g.overlap, g.bodies + [part]), maxChars)| <= maxChars
  {
    ClipTrimmed(part, maxChars);
    RenderSnoc(g, part, maxChars);
  }

  /** The part does not fit: a new group starts with the overlap of the open one. */
  lemma PlaceOverflows(closed: seq<Group>, overlap: string, part: string, seen: seq<string>,
                       maxChars: nat, overlapChars: nat)
    requires maxChars > 0 && WellGrouped(closed, maxChars, overlapChars) && Flatten(closed) == seen && Trimmed(part)
    requires overlap == "" || (Trimmed(overlap) && !IsHeading(part) && |overlap| <= overlapChars && closed != []
                               && overlap == OverlapOf(Render(closed[|closed| - 1], maxChars), overlapChars))
    ensures GroupingInv(Grouping(closed, Group(overlap, [part])), seen + [part], maxChars, overlapChars)
  {
    ClipTrimmed(part, maxChars);
    RenderFresh(overlap, part, maxChars);
    Opened(closed, Group(overlap, [part]), seen, maxChars, overlapChars);
  }

  lemma OpenOverlap(g: Grouping, seen: seq<string>, maxChars: nat, overlapChars: nat)
    requires maxChars > 0 && GroupingInv(g, seen, maxChars, overlapChars)
    ensures var overlap := OverlapOf(Render(g.open, maxChars), overlapChars);
            overlap == "" || (Trimmed(overlap) && |overlap| <= overlapChars && g.open != NO_GROUP)
  {
    if g.open != NO_GROUP {
      WellGroupedInit(g.closed, g.open, maxChars, overlapChars);
      RenderTrimmed(g.open, maxChars);
      OverlapIsSuffix(Render(g.open, maxChars), overlapChars);
    }
  }

  lemma PlaceKeepsInv(g: Grouping, part: string, seen: seq<string>, maxChars: nat, overlapChars: nat)
    requires maxChars > 0 && GroupingInv(g, seen, maxChars, overlapChars) && Trimmed(part)
    requires IsHeading(part) ==> g.open == NO_GROUP
    ensures GroupingInv(Place(g, part, maxChars, overlapChars), seen + [part], maxChars, overlapChars)
  {
    var shown := Render(g.open, maxChars);
    if |shown| + |part| + 2 <= maxChars {
      PlaceFits(g, part, seen, maxChars, overlapChars);
    } else {
      OpenOverlap(g, seen, maxChars, overlapChars);
      PlaceOverflows(Close(g), OverlapOf(shown, overlapChars), part, seen, maxChars, overlapChars);
    }
  }

  lemma RenderFresh(overlap: string, part: string, maxChars: nat)
    ensures Render(Group(overlap, [part]), maxChars)
            == if overlap == "" then Clip(part, maxChars) else overlap + BLANK_LINE + Clip(part, maxChars)
  {
    assert ClipAll([part], maxChars) == [Clip(part, maxChars)];
    JoinSnoc(if overlap == "" then [] else [overlap], Clip(part, maxChars), BLANK_LINE);
  }

  lemma AddPartKeepsInv(g: Grouping, part: string, seen: seq<string>, maxChars: nat, overlapChars: nat)
    requires maxChars > 0 && GroupingInv(g, seen, maxChars, overlapChars) && Trimmed(part)
    ensures GroupingInv(AddPart(g, part, maxChars, overlapChars), seen + [part], maxChars, overlapChars)
  {
    PlaceKeepsInv(if IsHeading(part) then Grouping(Close(g), NO_GROUP) else g, part, seen, maxChars, overlapChars);
  }

  lemma {:induction false} GroupedInv(parts: seq<string>, maxChars: nat, overlapChars: nat)
    requires maxChars > 0 && forall p :: p in parts ==> Trimmed(p)
    ensures GroupingInv(Grouped(parts, maxChars, overlapChars), parts, maxChars, overlapChars)
  {
    if parts != [] {
      var init, part := parts[..|parts| - 1], parts[|parts| - 1];
      assert parts == init + [part] && part in parts;
      assert forall p :: p in init ==> p in parts;
      GroupedInv(init, maxChars, overlapChars);
      AddPartKeepsInv(Grouped(init, maxChars, overlapChars), part, init, maxChars, overlapChars);
    }
  }

  /** Nothing of the chunk lies outside it: bounded, non-empty, headings first and without overlap. */
  ghost predicate ChunkBounds(g: Group, maxChars: nat, overlapChars: nat) {
    && 0 < |Render(g, maxChars)| <= maxChars + overlapChars + 2
    && g.overlap <= Render(g, maxChars)
    && (forall k :: 0 <= k < |g.bodies| && IsHeading(g.bodies[k]) ==> k == 0 && g.overlap == "")
  }

  /** The overlap of chunk i is the end of chunk i - 1. */
  ghost predicate RepeatsEnd(groups: seq<Group>, i: nat, maxChars: nat)
    requires i < |groups|
  {
    groups[i].overlap != "" ==> i > 0 && EndsWith(Render(groups[i - 1], maxChars), groups[i].overlap)
  }

  lemma ChunkFacts(groups: seq<Group>, i: nat, maxChars: nat, overlapChars: nat)
    requires maxChars > 0 && WellGrouped(groups, maxChars, overlapChars) && i < |groups|
    ensures ChunkBounds(groups[i], maxChars, overlapChars) && RepeatsEnd(groups, i, maxChars)
  {
    WellGroupedAt(groups, i, maxChars, overlapChars);
    RenderTrimmed(groups[i], maxChars);
    OverlapRepeats(groups, i, maxChars, overlapChars);
  }

  lemma OverlapRepeats(groups: seq<Group>, i: nat, maxChars: nat, overlapChars: nat)
    requires maxChars > 0 && WellGrouped(groups, maxChars, overlapChars) && i < |groups|
    ensures RepeatsEnd(groups, i, maxChars)
  {
    WellGroupedAt(groups, i, maxChars, overlapChars);
    if i > 0 {
      WellGroupedAt(groups, i - 1, maxChars, overlapChars);
      RenderTrimmed(groups[i - 1], maxChars);
      OverlapIsSuffix(Render(groups[i - 1], maxChars), overlapChars);
    }
  }

  /**
   * Chunking loses nothing and never crosses a heading: dropping the overlaps gives back every part in order
   * (whole, when no part exceeds the size limit), every chunk is non-empty and bounded, a heading part is
   * always the first part of a chunk without overlap, and an overlap repeats the end of the chunk before.
   */
  lemma ChunksPartitionParts(parts: seq<string>, maxChars: nat, overlapChars: nat)
    requires maxChars > 0 && forall p :: p in parts ==> Trimmed(p)
    ensures Flatten(Groups(parts, maxChars, overlapChars)) == parts
    ensures var groups := Groups(parts, maxChars, overlapChars);
            forall i :: 0 <= i < |groups| ==>
                          ChunkBounds(groups[i], maxChars, overlapChars) && RepeatsEnd(groups, i, maxChars)
    ensures (forall p :: p in parts ==> |p| <= maxChars) ==> ClipAll(parts, maxChars) == parts
  {
    GroupedInv(parts, maxChars, overlapChars);
    var groups := Groups(parts, maxChars, overlapChars);
    forall i | 0 <= i < |groups|
      ensures ChunkBounds(groups[i], maxChars, overlapChars) && RepeatsEnd(groups, i, maxChars)
    {
      ChunkFacts(groups, i, maxChars, overlapChars);
    }
    forall i | 0 <= i < |parts| && |parts[i]| <= maxChars ensures Clip(parts[i], maxChars) == parts[i] {
      ClipTrimmed(parts[i], maxChars);
    }
  }

  // The loop of _chunk_text refines the grouping

  lemma SectionsSnoc(groups: seq<Group>, g: Group, maxChars: nat)
    ensures Sections(groups + [g], maxChars) == Sections(groups, maxChars) + [LastSection(groups + [g], maxChars)]
  {
    assert (groups + [g])[..|groups|] == groups;
  }

  lemma {:induction false} SectionAt(groups: seq<Group>, i: nat, maxChars: nat)
    requires i < |groups|
    ensures Sections(groups, maxChars)[i] == LastSection(groups[..i + 1], maxChars)
  {
    if i == |groups| - 1 {
      assert groups[..i + 1] == groups;
    } else {
      SectionAt(groups[..|groups| - 1], i, maxChars);
      assert groups[..|groups| - 1][..i + 1] == groups[..i + 1];
    }
  }

  /** What the loop variables hold between two parts. */
  ghost predicate LoopState(chunks: seq<Section>, current: string, counter: nat, g: Grouping, seen: seq<string>,
                            maxChars: nat, overlapChars: nat) {
    && maxChars > 0
    && GroupingInv(g, seen, maxChars, overlapChars)
    && current == Render(g.open, maxChars)
    && (current == "" <==> g.open == NO_GROUP)
    && counter == |g.closed|
    && chunks == Sections(g.closed, maxChars)
  }

  lemma FlushOpen(chunks: seq<Section>, current: string, counter: nat, g: Grouping, seen: seq<string>,
                  maxChars: nat, overlapChars: nat)
    requires LoopState(chunks, current, counter, g, seen, maxChars, overlapChars) && current != ""
    ensures Sections(Close(g), maxChars)
            == chunks + [MakeSection(current, TitleOf(seen), ParentOf(seen), counter + 1)]
  {
    SectionsSnoc(g.closed, g.open, maxChars);
  }

  lemma RenderedFit(g: Group, part: string, maxChars: nat)
    requires maxChars > 0 && Trimmed(part) && |part| <= maxChars && (g == NO_GROUP || GoodGroup(g))
    ensures Render(Group(g.overlap, g.bodies + [part]), maxChars) == Strip(Render(g, maxChars) + BLANK_LINE + part)
    ensures Trimmed(Render(Group(g.overlap, g.bodies + [part]), maxChars))
  {
    ClipTrimmed(part, maxChars);
    RenderSnoc(g, part, maxChars);
    if g == NO_GROUP {
      StripLeadingBlankLine(part);
      RenderNothing(maxChars, part);
    } else {
      AppendTrimmed(Render(g, maxChars), part);
      StripOfTrimmed(Render(g, maxChars) + BLANK_LINE + part);
    }
  }

  lemma RenderNothing(maxChars: nat, part: string)
    ensures Render(NO_GROUP, maxChars) == "" && Render(NO_GROUP, maxChars) + BLANK_LINE + part == BLANK_LINE + part
  {}

  lemma AppendTrimmed(a: string, b: string)
    requires Trimmed(a) && Trimmed(b)
    ensures Trimmed(a + BLANK_LINE + b)
  {}

  lemma RenderedOverflow(overlap: string, part: string, maxChars: nat)
    requires maxChars > 0 && Trimmed(part) && (overlap == "" || Trimmed(overlap))
    ensures Render(Group(overlap, [part]), maxChars)
            == if overlap != "" then Strip(overlap + BLANK_LINE + Head(part, maxChars)) else Strip(Head(part, maxChars))
    ensures Render(Group(overlap, [part]), maxChars) != ""
  {
    ClipTrimmed(part, maxChars);
    RenderFresh(overlap, part, maxChars);
    if overlap != "" {
      StripOverlapped(overlap, part, maxChars);
    }
  }

  lemma OpenIsGood(g: Grouping, seen: seq<string>, maxChars: nat, overlapChars: nat)
    requires GroupingInv(g, seen, maxChars, overlapChars)
    ensures g.open == NO_GROUP || GoodGroup(g.open)
  {
    OpenFacts(g, seen, maxChars, overlapChars);
  }

  lemma FitStep(chunks: seq<Section>, current: string, counter: nat, g: Grouping, seen: seq<string>, part: string,
                maxChars: nat, overlapChars: nat)
    requires LoopState(chunks, current, counter, g, seen, maxChars, overlapChars) && Trimmed(part)
    requires IsHeading(part) ==> g.open == NO_GROUP
    requires |current| + |part| + 2 <= maxChars
    ensures LoopState(chunks, Strip(current + BLANK_LINE + part), counter, Place(g, part, maxChars, overlapChars),
                      seen + [part], maxChars, overlapChars)
  {
    var grown := Group(g.open.overlap, g.open.bodies + [part]);
    OpenIsGood(g, seen, maxChars, overlapChars);
    RenderedFit(g.open, part, maxChars);
    PlaceKeepsInv(g, part, seen, maxChars, overlapChars);
    assert Place(g, part, maxChars, overlapChars) == Grouping(g.closed, grown);
    assert grown != NO_GROUP by { assert grown.bodies[|g.open.bodies|] == part; }
    var now := Strip(current + BLANK_LINE + part);
    assert now == Render(grown, maxChars) && now != "";
  }

  lemma OverflowStep(chunks: seq<Section>, current: string, counter: nat, g: Grouping, seen: seq<string>,
                     part: string, maxChars: nat, overlapChars: nat)
    requires LoopState(chunks, current, counter, g, seen, maxChars, overlapChars) && Trimmed(part)
    requires IsHeading(part) ==> g.open == NO_GROUP
    requires |current| + |part| + 2 > maxChars
    ensures var overlap := OverlapOf(current, overlapChars);
            LoopState(Sections(Close(g), maxChars),
                      if overlap != "" then Strip(overlap + BLANK_LINE + Head(part, maxChars))
                      else Strip(Head(part, maxChars)),
                      |Close(g)|, Place(g, part, maxChars, overlapChars), seen + [part], maxChars, overlapChars)
  {
    OpenOverlap(g, seen, maxChars, overlapChars);
    RenderedOverflow(OverlapOf(current, overlapChars), part, maxChars);
    PlaceKeepsInv(g, part, seen, maxChars, overlapChars);
  }

  lemma HeadingStep(chunks: seq<Section>, current: string, counter: nat, g: Grouping, seen: seq<string>,
                    maxChars: nat, overlapChars: nat)
    requires LoopState(chunks, current, counter, g, seen, maxChars, overlapChars)
    ensures LoopState(Sections(Close(g), maxChars), "", |Close(g)|, Grouping(Close(g), NO_GROUP), seen,
                      maxChars, overlapChars)
  {}

  lemma StripLeadingBlankLine(part: string)
    requires Trimmed(part)
    ensures Strip(BLANK_LINE + part) == part
  {
    var once, twice := ['\n'] + part, ['\n'] + (['\n'] + part);
    assert BLANK_LINE + part == twice && twice[1..] == once && once[1..] == part;
    assert LeftStrip(part) == part && LeftStrip(once) == part && LeftStrip(twice) == part;
  }

  lemma StripOverlapped(overlap: string, part: string, maxChars: nat)
    requires Trimmed(overlap) && Trimmed(part) && maxChars > 0
    ensures Strip(overlap + BLANK_LINE + Head(part, maxChars)) == overlap + BLANK_LINE + Clip(part, maxChars)
  {
    ClipTrimmed(part, maxChars);
    var head := Head(part, maxChars);
    assert head[0] == part[0] && LeftStrip(head) == head;
    RightStripAppend(overlap + BLANK_LINE, head);
  }

  lemma GroupedSnoc(seen: seq<string>, part: string, maxChars: nat, overlapChars: nat)
    ensures Grouped(seen + [part], maxChars, overlapChars)
            == AddPart(Grouped(seen, maxChars, overlapChars), part, maxChars, overlapChars)
    ensures TitleOf(seen + [part]) == TitleAfter(TitleOf(seen), part)
    ensures ParentOf(seen + [part]) == ParentAfter(ParentOf(seen), part)
  {
    assert (seen + [part])[..|seen|] == seen;
  }

  lemma LoopStateOf(seen: seq<string>, maxChars: nat, overlapChars: nat)
    requires maxChars > 0 && forall p :: p in seen ==> Trimmed(p)
    ensures var g := Grouped(seen, maxChars, overlapChars);
            LoopState(Sections(g.closed, maxChars), Render(g.open, maxChars), |g.closed|, g, seen, maxChars,
                      overlapChars)
  {
    var g := Grouped(seen, maxChars, overlapChars);
    GroupedInv(seen, maxChars, overlapChars);
    OpenIsGood(g, seen, maxChars, overlapChars);
    if g.open == NO_GROUP {
      RenderNothing(maxChars, "");
    } else {
      RenderTrimmed(g.open, maxChars);
    }
  }

  /** The end of the loop body: the part joins the open chunk, or closes it and starts another one. */
  method PlacePart(part: string, chunks0: seq<Section>, current0: string, title: string, parent: string, counter0: nat,
                   ghost g: Grouping, ghost seen: seq<string>, maxChars: nat, overlapChars: nat)
    returns (chunks: seq<Section>, current: string, counter: nat)
    requires LoopState(chunks0, current0, counter0, g, seen, maxChars, overlapChars)
    requires Trimmed(part) && (IsHeading(part) ==> g.open == NO_GROUP)
    requires title == TitleOf(seen) && parent == ParentOf(seen)
    ensures chunks == Sections(Place(g, part, maxChars, overlapChars).closed, maxChars)
    ensures current == Render(Place(g, part, maxChars, overlapChars).open, maxChars)
    ensures counter == |Place(g, part, maxChars, overlapChars).closed|
  {
    chunks, current, counter := chunks0, current0, counter0;
    if |current| + |part| + 2 <= maxChars {
      FitStep(chunks, current, counter, g, seen, part, maxChars, overlapChars);
      current := Strip(current + BLANK_LINE + part);
    } else {
      OverflowStep(chunks, current, counter, g, seen, part, maxChars, overlapChars);
      if current != "" {
        FlushOpen(chunks, current, counter, g, seen, maxChars, overlapChars);
        counter := counter + 1;
        chunks := chunks + [MakeSection(current, title, parent, counter)];
      }
      var overlap := OverlapOf(current, overlapChars);
      current := if overlap != "" then Strip(overlap + BLANK_LINE + Head(part, maxChars))
                 else Strip(Head(part, maxChars));
    }
  }

  /** One pass through the loop body, for a stripped non-blank part. */
  method AbsorbPart(part: string, chunks0: seq<Section>, current0: string, title: string, parent: string, counter0: nat,
                    ghost seen: seq<string>, maxChars: nat, overlapChars: nat)
    returns (chunks: seq<Section>, current: string, counter: nat)
    requires maxChars > 0 && Trimmed(part) && forall p :: p in seen ==> Trimmed(p)
    requires chunks0 == Sections(Grouped(seen, maxChars, overlapChars).closed, maxChars)
    requires current0 == Render(Grouped(seen, maxChars, overlapChars).open, maxChars)
    requires counter0 == |Grouped(seen, maxChars, overlapChars).closed|
    requires title == TitleOf(seen) && parent == ParentOf(seen)
    ensures chunks == Sections(Grouped(seen + [part], maxChars, overlapChars).closed, maxChars)
    ensures current == Render(Grouped(seen + [part], maxChars, overlapChars).open, maxChars)
    ensures counter == |Grouped(seen + [part], maxChars, overlapChars).closed|
  {
    chunks, current, counter := chunks0, current0, counter0;
    ghost var g := Grouped(seen, maxChars, overlapChars);
    LoopStateOf(seen, maxChars, overlapChars);
    GroupedSnoc(seen, part, maxChars, overlapChars);
    if IsHeading(part) {
      HeadingStep(chunks, current, counter, g, seen, maxChars, overlapChars);
      if current != "" {
        FlushOpen(chunks, current, counter, g, seen, maxChars, overlapChars);
        counter := counter + 1;
        chunks := chunks + [MakeSection(current, title, parent, counter)];
        current := "";
      }
      g := Grouping(Close(g), NO_GROUP);
    }
    chunks, current, counter :=
      PlacePart(part, chunks, current, title, parent, counter, g, seen, maxChars, overlapChars);
  }

  lemma StrippedParts(raw: seq<string>)
    ensures forall p :: p in Filter(NonEmpty, Map(Strip, raw)) ==> Trimmed(p)
  {}

  /** _chunk_text */
  method ChunkTextLoop(text: string, maxChars: nat, overlapChars: nat) returns (chunks: seq<Section>)
    requires maxChars > 0
    ensures chunks == Sections(Groups(Parts(text), maxChars, overlapChars), maxChars)
  {
    var raw := SplitFrom(NormalizeLines(text), 0, 0);
    chunks := [];
    var current, title, parent, counter := "", OVERVIEW, OVERVIEW, 0;
    ghost var seen: seq<string> := [];
    RenderNothing(maxChars, "");
    for i := 0 to |raw|
      invariant seen == Filter(NonEmpty, Map(Strip, raw[..i]))
      invariant chunks == Sections(Grouped(seen, maxChars, overlapChars).closed, maxChars)
      invariant current == Render(Grouped(seen, maxChars, overlapChars).open, maxChars)
      invariant counter == |Grouped(seen, maxChars, overlapChars).closed|
      invariant title == TitleOf(seen) && parent == ParentOf(seen)
    {
      var part := Strip(raw[i]);
      FilterMapSnoc(NonEmpty, Strip, raw, i);
      if part == "" {
        continue;
      }
      GroupedSnoc(seen, part, maxChars, overlapChars);
      StrippedParts(raw[..i]);
      chunks, current, counter := AbsorbPart(part, chunks, current, title, parent, counter, seen, maxChars,
                                             overlapChars);
      parent, title := ParentAfter(parent, part), TitleAfter(title, part);
      seen := seen + [part];
    }
    assert raw[..|raw|] == raw;
    StrippedParts(raw);
    LoopStateOf(seen, maxChars, overlapChars);
    if current != "" {
      FlushOpen(chunks, current, counter, Grouped(seen, maxChars, overlapChars), seen, maxChars, overlapChars);
      chunks := chunks + [MakeSection(current, title, parent, counter + 1)];
    }
  }

  // Chunk ids

  /** The id of the i-th chunk of an item. */
  function ChunkId(itemId: string, section: Section, i: nat): string {
    itemId + "#" + (section.sectionPath + "-" + NatText(i + 1))
  }

  predicate HashFree(s: string) { '#' !in s }

  lemma {:induction false} JoinHashFree(ws: seq<string>)
    requires forall w :: w in ws ==> HashFree(w)
    ensures HashFree(Join(ws, "-"))
  {
    if ws != [] {
      assert ws[0] in ws && forall w :: w in ws[1..] ==> w in ws;
      JoinHashFree(ws[1..]);
    }
  }

  lemma SlugHashFree(text: string)
    ensures HashFree(Slug(text))
  {
    forall w | w in Runs(Lower(text), IsSlugChar) ensures HashFree(w) {
      assert WordOver(w, IsSlugChar);
    }
    JoinHashFree(Runs(Lower(text), IsSlugChar));
  }

  lemma LastHash(a: string, x: string, b: string, y: string)
    requires HashFree(x) && HashFree(y) && a + "#" + x == b + "#" + y
    ensures a == b && x == y
  {
    var s := a + "#" + x;
    assert s[|a|] == '#' && s[|b|] == '#';
    assert forall i :: |a| < i < |s| ==> s[i] in x;
    assert forall i :: |b| < i < |s| ==> s[i] in y;
    assert a == s[..|a|] == b && x == s[|a| + 1..] == y;
  }

  lemma NumberBeforeHyphen(m: nat, x: string, n: nat, y: string)
    requires NatText(m) + "-" + x == NatText(n) + "-" + y
    ensures m == n
  {
    var s, a, b := NatText(m) + "-" + x, NatText(m), NatText(n);
    assert forall i :: 0 <= i < |a| ==> s[i] in a;
    assert forall i :: 0 <= i < |b| ==> s[i] in b;
    assert s[|a|] == '-' && s[|b|] == '-';
    RunLengthIs(s, IsDigit, |a|);
    RunLengthIs(s, IsDigit, |b|);
    assert a == s[..|a|] == b;
    NatTextInjective(m, n);
  }

  lemma PathHashFree(counter: nat, parent: string, title: string)
    ensures HashFree(Slug(parent) + "-" + Slug(title) + "-" + NatText(counter))
  {
    SlugHashFree(title);
    SlugHashFree(parent);
    assert HashFree(NatText(counter));
  }

  lemma IdShape(text: string, title: string, parent: string, i: nat) returns (x: string)
    ensures var s := MakeSection(text, title, parent, i + 1);
            s.sectionPath + "-" + NatText(i + 1) == NatText(i + 1) + "-" + x
    ensures HashFree(NatText(i + 1) + "-" + x)
  {
    var p, t := Slug(parent), Slug(title);
    x := p + "-" + t + "-" + NatText(i + 1);
    PathHashFree(i + 1, parent, title);
    assert HashFree(NatText(i + 1));
  }

  /** Chunk ids are unique within an item and across items with different ids. */
  lemma ChunkIdsDistinct(id1: string, groups1: seq<Group>, i: nat, id2: string, groups2: seq<Group>, j: nat,
                         maxChars: nat)
    requires i < |groups1| && j < |groups2|
    requires ChunkId(id1, Sections(groups1, maxChars)[i], i) == ChunkId(id2, Sections(groups2, maxChars)[j], j)
    ensures id1 == id2 && i == j
  {
    SectionAt(groups1, i, maxChars);
    SectionAt(groups2, j, maxChars);
    var parts1, parts2 := Flatten(groups1[..i + 1]), Flatten(groups2[..j + 1]);
    SectionIdsDistinct(id1, Render(groups1[i], maxChars), TitleOf(parts1), ParentOf(parts1), i,
                       id2, Render(groups2[j], maxChars), TitleOf(parts2), ParentOf(parts2), j);
  }

  lemma SectionIdsDistinct(id1: string, text1: string, title1: string, parent1: string, i: nat,
                           id2: string, text2: string, title2: string, parent2: string, j: nat)
    requires ChunkId(id1, MakeSection(text1, title1, parent1, i + 1), i)
             == ChunkId(id2, MakeSection(text2, title2, parent2, j + 1), j)
    ensures id1 == id2 && i == j
  {
    var x1 := IdShape(text1, title1, parent1, i);
    var x2 := IdShape(text2, title2, parent2, j);
    var y1, y2 := NatText(i + 1) + "-" + x1, NatText(j + 1) + "-" + x2;
    assert ChunkId(id1, MakeSection(text1, title1, parent1, i + 1), i) == id1 + "#" + y1;
    assert ChunkId(id2, MakeSection(text2, title2, parent2, j + 1), j) == id2 + "#" + y2;
    LastHash(id1, y1, id2, y2);
    NumberBeforeHyphen(i + 1, x1, j + 1, x2);
  }
}
