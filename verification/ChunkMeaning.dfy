/** What becomes of an item's text: where it is cut into parts, which parts share a chunk, and how chunks are titled. */
module ChunkMeaning {
  import opened Seqs
  import opened Text
  import opened Chunker

  // Where the text is cut

  /** A newline before a heading of the given level: that many hashes and white space. */
  predicate BreaksBefore(s: string, i: nat, level: nat) {
    i + level + 1 < |s| && s[i] == '\n' && IsSpace(s[i + level + 1]) && forall k :: i < k <= i + level ==> s[k] == '#'
  }

  predicate BreaksBeforeHeading(s: string, i: nat) { BreaksBefore(s, i, 1) || BreaksBefore(s, i, 2) }

  predicate TwoNewlines(s: string, i: nat) { i + 1 < |s| && s[i] == '\n' && s[i + 1] == '\n' }

  /** All newlines from a to b, and none right before or behind. */
  predicate WholeRun(s: string, a: nat, b: nat) {
    && a + 2 <= b <= |s| && (forall k :: a <= k < b ==> s[k] == '\n')
    && (a > 0 ==> s[a - 1] != '\n') && (b < |s| ==> s[b] != '\n')
  }

  /** A maximal run of two or more newlines, or one newline before a heading of level one or two. */
  predicate IsSeparator(s: string, a: nat, b: nat) {
    WholeRun(s, a, b) || (b == a + 1 && BreaksBeforeHeading(s, a))
  }

  predicate NoSeparator(s: string, a: nat, b: nat) {
    forall i :: a <= i < b ==> !TwoNewlines(s, i) && !BreaksBeforeHeading(s, i)
  }

  /** A separator, from its first position up to its end. */
  datatype Cut = Cut(from: nat, to: nat)

  function PartStart(start: nat, cuts: seq<Cut>, j: nat): nat
    requires j <= |cuts|
  {
    if j == 0 then start else cuts[j - 1].to
  }

  function PartEnd(s: string, cuts: seq<Cut>, j: nat): nat
    requires j <= |cuts|
  {
    if j == |cuts| then |s| else cuts[j].from
  }

  /** The j-th part is the text between two separators, and no separator begins in it. */
  ghost predicate PartBetween(s: string, start: nat, parts: seq<string>, cuts: seq<Cut>, j: nat)
    requires j <= |cuts| && j < |parts|
  {
    var a, b := PartStart(start, cuts, j), PartEnd(s, cuts, j);
    a <= b <= |s| && parts[j] == s[a..b] && NoSeparator(s, a, b)
  }

  ghost predicate CutAt(s: string, start: nat, parts: seq<string>, cuts: seq<Cut>) {
    && |parts| == |cuts| + 1
    && (forall j :: 0 <= j < |cuts| ==> IsSeparator(s, cuts[j].from, cuts[j].to))
    && (forall j :: 0 <= j <= |cuts| ==> PartBetween(s, start, parts, cuts, j))
  }

  lemma SeparatorFound(s: string, start: nat, i: nat)
    requires start <= i < |s| && (i > 0 ==> s[i - 1] != '\n' || s[i] != '\n')
    ensures var n := SeparatorLength(s, i);
            if n > 0 then i + n <= |s| && IsSeparator(s, i, i + n) && (i + n < |s| ==> s[i + n] != '\n')
            else !TwoNewlines(s, i) && !BreaksBeforeHeading(s, i)
  {
    if s[i] == '\n' {
      var n := RunLength(s[i..], IsNewline);
      assert forall k :: i <= k < i + n ==> s[k] == s[i..][k - i];
      assert n < |s[i..]| ==> s[i..][n] == s[i + n];
      HeadingFound(s, i);
    }
  }

  lemma HeadingFound(s: string, i: nat)
    requires i < |s| && s[i] == '\n'
    ensures BreaksBeforeHeading(s, i)
            <==> HashAt(s, i + 1) && (SpaceAt(s, i + 2) || (HashAt(s, i + 2) && SpaceAt(s, i + 3)))
  {
    assert BreaksBefore(s, i, 1) <==> HashAt(s, i + 1) && SpaceAt(s, i + 2);
    assert BreaksBefore(s, i, 2) <==> HashAt(s, i + 1) && HashAt(s, i + 2) && SpaceAt(s, i + 3);
  }

  /** The split from a position: the separators behind it, and the texts between them. */
  lemma {:induction false} SplitCuts(s: string, start: nat, i: nat) returns (cuts: seq<Cut>)
    requires start <= i <= |s| && NoSeparator(s, start, i)
    requires start > 0 && start < |s| ==> s[start] != '\n' || s[start - 1] != '\n'
    ensures CutAt(s, start, SplitFrom(s, start, i), cuts)
    decreases |s| - i
  {
    if i == |s| {
      cuts := [];
    } else {
      assert i > start ==> !TwoNewlines(s, i - 1);
      SeparatorFound(s, start, i);
      var n := SeparatorLength(s, i);
      if n > 0 {
        var rest := SplitCuts(s, i + n, i + n);
        cuts := [Cut(i, i + n)] + rest;
        CutMore(s, start, i, n, SplitFrom(s, i + n, i + n), rest);
      } else {
        cuts := SplitCuts(s, start, i + 1);
      }
    }
  }

  lemma CutMore(s: string, start: nat, i: nat, n: nat, parts: seq<string>, cuts: seq<Cut>)
    requires start <= i && i + n <= |s| && NoSeparator(s, start, i) && IsSeparator(s, i, i + n)
    requires CutAt(s, i + n, parts, cuts)
    ensures CutAt(s, start, [s[start..i]] + parts, [Cut(i, i + n)] + cuts)
  {
    var ps, cs := [s[start..i]] + parts, [Cut(i, i + n)] + cuts;
    forall j | 0 <= j < |cs| ensures IsSeparator(s, cs[j].from, cs[j].to) {
      if j > 0 {
        assert cs[j] == cuts[j - 1];
      }
    }
    forall j | 0 <= j <= |cs| ensures PartBetween(s, start, ps, cs, j) {
      if j > 0 {
        assert PartBetween(s, i + n, parts, cuts, j - 1);
        assert ps[j] == parts[j - 1];
        assert PartStart(start, cs, j) == PartStart(i + n, cuts, j - 1);
        assert PartEnd(s, cs, j) == PartEnd(s, cuts, j - 1);
      }
    }
  }

  /**
   * The normalised text is its raw parts with one separator between each two: a maximal run of two or more newlines,
   * or one newline before a heading of level one or two. No separator begins inside a part, so no text is lost and
   * none is cut elsewhere.
   */
  lemma RawParts(s: string) returns (cuts: seq<Cut>)
    ensures CutAt(s, 0, SplitFrom(s, 0, 0), cuts)
  {
    cuts := SplitCuts(s, 0, 0);
  }

  // Nothing but white space is lost

  /** The characters of a text that are not white space. */
  function Letters(s: string): string {
    if s == "" then "" else (if IsSpace(s[0]) then "" else [s[0]]) + Letters(s[1..])
  }

  function AllLetters(parts: seq<string>): string {
    if parts == [] then "" else Letters(parts[0]) + AllLetters(parts[1..])
  }

  lemma {:induction false} LettersAppend(s: string, t: string)
    ensures Letters(s + t) == Letters(s) + Letters(t)
  {
    if s == "" {
      assert s + t == t;
    } else {
      assert (s + t)[1..] == s[1..] + t;
      LettersAppend(s[1..], t);
    }
  }

  lemma {:induction false} Blank(s: string)
    requires forall c :: c in s ==> IsSpace(c)
    ensures Letters(s) == ""
  {
    if s != "" {
      assert s[0] in s && forall c :: c in s[1..] ==> c in s;
      Blank(s[1..]);
    }
  }

  lemma LettersOf(s: string, a: string, b: string)
    requires s == a + b
    ensures Letters(s) == Letters(a) + Letters(b)
  {
    LettersAppend(a, b);
  }

  lemma BlankBehind(s: string, a: string, blank: string)
    requires s == a + blank && forall c :: c in blank ==> IsSpace(c)
    ensures Letters(s) == Letters(a)
  {
    LettersOf(s, a, blank);
    Blank(blank);
  }

  /** A text out of which a blank stretch is taken. */
  lemma BlankBetween(s: string, a: string, blank: string, b: string)
    requires s == a + blank + b && forall c :: c in blank ==> IsSpace(c)
    ensures Letters(s) == Letters(a) + Letters(b)
  {
    var front := a + blank;
    BlankBehind(front, a, blank);
    LettersOf(s, front, b);
  }

  lemma {:induction false} LeftStripLetters(s: string)
    ensures Letters(LeftStrip(s)) == Letters(s)
  {
    if s != "" && IsSpace(s[0]) {
      LeftStripLetters(s[1..]);
    }
  }

  lemma {:induction false} RightStripLetters(s: string)
    ensures Letters(RightStrip(s)) == Letters(s)
  {
    if s != "" && IsSpace(s[|s| - 1]) {
      var init := s[..|s| - 1];
      RightStripLetters(init);
      BlankBehind(s, init, [s[|s| - 1]]);
    }
  }

  lemma StripLetters(s: string)
    ensures Letters(Strip(s)) == Letters(s)
  {
    LeftStripLetters(s);
    RightStripLetters(LeftStrip(s));
  }

  lemma {:induction false} StrippedLetters(f: string -> string, ws: seq<string>)
    requires forall w :: Letters(f(w)) == Letters(w)
    ensures AllLetters(Map(f, ws)) == AllLetters(ws)
  {
    if ws != [] {
      StrippedLetters(f, ws[1..]);
      MapTail(f, ws);
    }
  }

  lemma {:induction false} NonEmptyLetters(ws: seq<string>)
    ensures AllLetters(Filter(NonEmpty, ws)) == AllLetters(ws)
  {
    if ws != [] {
      NonEmptyLetters(ws[1..]);
    }
  }

  lemma {:induction false} JoinLetters(ws: seq<string>, sep: string)
    requires forall c :: c in sep ==> IsSpace(c)
    ensures Letters(Join(ws, sep)) == AllLetters(ws)
  {
    if |ws| == 1 {
      assert AllLetters(ws) == Letters(ws[0]) + "";
    } else if |ws| > 1 {
      JoinLetters(ws[1..], sep);
      BlankBetween(Join(ws, sep), ws[0], sep, Join(ws[1..], sep));
    }
  }

  lemma FirstLetters(first: string, rest: seq<string>)
    ensures AllLetters([first] + rest) == Letters(first) + AllLetters(rest)
  {
    assert ([first] + rest)[1..] == rest;
  }

  lemma OneLetters(s: string)
    ensures AllLetters([s]) == Letters(s)
  {
    assert AllLetters([s]) == Letters(s) + "";
  }

  lemma {:induction false} LinesLetters(s: string)
    ensures AllLetters(SplitLines(s)) == Letters(s)
    decreases |s|
  {
    if s != "" {
      var n := RunLength(s, NotLineBreak);
      if n == |s| {
        OneLetters(s);
      } else {
        var k := BreakEnd(s, n);
        LinesLetters(s[k..]);
        CutLetters(s, n, k, SplitLines(s[k..]));
      }
    }
  }

  /** Where the line break at position n ends. */
  function BreakEnd(s: string, n: nat): (k: nat)
    requires n < |s| && IsLineBreak(s[n])
    ensures n < k <= |s| && forall i :: n <= i < k ==> IsSpace(s[i])
  {
    if s[n] == '\r' && n + 1 < |s| && s[n + 1] == '\n' then n + 2 else n + 1
  }

  /** A text is its first piece and the rest behind a blank stretch. */
  lemma CutLetters(s: string, n: nat, k: nat, rest: seq<string>)
    requires n <= k <= |s| && forall i :: n <= i < k ==> IsSpace(s[i])
    ensures AllLetters(rest) == Letters(s[k..]) ==> AllLetters([s[..n]] + rest) == Letters(s)
  {
    FirstLetters(s[..n], rest);
    LineBreakBlank(s, n, k);
  }

  lemma SplitInThree(s: string, n: nat, k: nat)
    requires n <= k <= |s|
    ensures s == s[..n] + s[n..k] + s[k..]
  {}

  lemma LineBreakBlank(s: string, n: nat, k: nat)
    requires n <= k <= |s| && forall i :: n <= i < k ==> IsSpace(s[i])
    ensures Letters(s) == Letters(s[..n]) + Letters(s[k..])
  {
    SplitInThree(s, n, k);
    BlankBetween(s, s[..n], s[n..k], s[k..]);
  }

  lemma {:induction false} SplitLetters(s: string, start: nat, i: nat)
    requires start <= i <= |s|
    ensures AllLetters(SplitFrom(s, start, i)) == Letters(s[start..])
    decreases |s| - i
  {
    if i == |s| {
      LastPart(s, start);
    } else if SeparatorLength(s, i) > 0 {
      var k := i + SeparatorLength(s, i);
      SplitLetters(s, k, k);
      CutStep(s, start, i);
      SeparatorBlank(s, i);
      PartLetters(s, start, i, k, SplitFrom(s, k, k));
    } else {
      SplitLetters(s, start, i + 1);
      SkipStep(s, start, i);
    }
  }

  lemma LastPart(s: string, start: nat)
    requires start <= |s|
    ensures AllLetters(SplitFrom(s, start, |s|)) == Letters(s[start..])
  {
    OneLetters(s[start..]);
  }

  lemma SkipStep(s: string, start: nat, i: nat)
    requires start <= i < |s| && SeparatorLength(s, i) == 0
    ensures SplitFrom(s, start, i) == SplitFrom(s, start, i + 1)
  {}

  lemma CutStep(s: string, start: nat, i: nat)
    requires start <= i < |s| && SeparatorLength(s, i) > 0
    ensures var k := i + SeparatorLength(s, i); SplitFrom(s, start, i) == [s[start..i]] + SplitFrom(s, k, k)
  {}

  lemma PartLetters(s: string, start: nat, i: nat, k: nat, rest: seq<string>)
    requires start <= i <= k <= |s| && forall j :: i <= j < k ==> IsSpace(s[j])
    ensures AllLetters(rest) == Letters(s[k..]) ==> AllLetters([s[start..i]] + rest) == Letters(s[start..])
  {
    var t := s[start..];
    assert t[..i - start] == s[start..i] && t[k - start..] == s[k..];
    CutLetters(t, i - start, k - start, rest);
  }

  lemma SeparatorBlank(s: string, i: nat)
    requires i < |s|
    ensures forall k :: i <= k < i + SeparatorLength(s, i) ==> IsSpace(s[k])
  {
    var n := SeparatorLength(s, i);
    forall k | i <= k < i + n ensures IsSpace(s[k]) {
      assert s[k] == s[i..][k - i];
    }
  }

  /** Cutting into parts keeps every character that is not white space, in order. */
  lemma PartsLetters(text: string)
    ensures AllLetters(Parts(text)) == Letters(text)
  {
    var lines, normal := SplitLines(Strip(text)), NormalizeLines(text);
    StripLetters(text);
    LinesLetters(Strip(text));
    forall w ensures Letters(RightStrip(w)) == Letters(w) {
      RightStripLetters(w);
    }
    StrippedLetters(RightStrip, lines);
    JoinLetters(Map(RightStrip, lines), "\n");
    SplitLetters(normal, 0, 0);
    assert normal[0..] == normal;
    forall w ensures Letters(Strip(w)) == Letters(w) {
      StripLetters(w);
    }
    StrippedLetters(Strip, SplitFrom(normal, 0, 0));
    NonEmptyLetters(Map(Strip, SplitFrom(normal, 0, 0)));
  }

  /** And so do the chunks, without their overlaps. */
  lemma ChunksLetters(text: string, maxChars: nat, overlapChars: nat)
    requires maxChars > 0
    ensures AllLetters(Flatten(Groups(Parts(text), maxChars, overlapChars))) == Letters(text)
  {
    PartsLetters(text);
    ChunksPartitionParts(Parts(text), maxChars, overlapChars);
  }

  /** The text of a chunk: its overlap, then its parts, each cut to the limit. */
  lemma ChunkText(g: Group, maxChars: nat)
    ensures Letters(Render(g, maxChars)) == Letters(g.overlap) + AllLetters(ClipAll(g.bodies, maxChars))
  {
    JoinLetters(Shown(g, maxChars), BLANK_LINE);
    var parts := ClipAll(g.bodies, maxChars);
    if g.overlap == "" {
      assert [] + parts == parts;
    } else {
      assert ([g.overlap] + parts)[1..] == parts;
    }
  }

  /** A cut part is its longest trimmed beginning within the limit. */
  lemma ClipMeaning(part: string, maxChars: nat)
    requires Trimmed(part) && maxChars > 0
    ensures Clip(part, maxChars) <= part && |Clip(part, maxChars)| <= maxChars
    ensures Letters(Clip(part, maxChars)) == Letters(Head(part, maxChars))
  {
    var head := Head(part, maxChars);
    assert head[0] == part[0] && LeftStrip(head) == head;
    StripLetters(head);
  }

  // Titles

  /** The title of a list of parts is that of its last heading. */
  lemma {:induction false} TitleOfNearest(parts: seq<string>, k: nat)
    requires k < |parts| && IsHeading(parts[k]) && forall j :: k < j < |parts| ==> !IsHeading(parts[j])
    ensures TitleOf(parts) == HeadingTitle(parts[k])
  {
    if k < |parts| - 1 {
      TitleOfNearest(parts[..|parts| - 1], k);
    }
  }

  lemma {:induction false} NoTitle(parts: seq<string>)
    requires forall p :: p in parts ==> !IsHeading(p)
    ensures TitleOf(parts) == "overview" && ParentOf(parts) == "overview"
  {
    if parts != [] {
      assert parts[|parts| - 1] in parts;
      NoTitle(parts[..|parts| - 1]);
    }
  }

  predicate IsTopHeading(part: string) { IsHeading(part) && HeadingLevel(part) <= 2 }

  /** The parent title is that of the last heading of level one or two. */
  lemma {:induction false} ParentOfNearest(parts: seq<string>, k: nat)
    requires k < |parts| && IsTopHeading(parts[k]) && forall j :: k < j < |parts| ==> !IsTopHeading(parts[j])
    ensures ParentOf(parts) == HeadingTitle(parts[k])
  {
    if k < |parts| - 1 {
      ParentOfNearest(parts[..|parts| - 1], k);
    }
  }

  /** A heading part: up to three hashes, white space, the title, and perhaps more lines. */
  lemma HeadingReads(part: string, hashes: string, blanks: string, title: string, rest: string)
    requires part == hashes + (blanks + (title + rest))
    requires 1 <= |hashes| <= 3 && (forall c :: c in hashes ==> c == '#')
    requires blanks != "" && (forall c :: c in blanks ==> IsSpace(c))
    requires Trimmed(title) && '\n' !in title && (rest != "" ==> rest[0] == '\n')
    ensures IsHeading(part) && HeadingLevel(part) == |hashes| && HeadingTitle(part) == title
  {
    assert forall i :: 0 <= i < |hashes| ==> part[i] == hashes[i] && hashes[i] in hashes;
    assert part[|hashes|] == blanks[0] && blanks[0] in blanks;
    RunLengthIs(part, IsHash, |hashes|);
    assert part[|hashes|..] == blanks + (title + rest);
    LeftStripBlanks(blanks, title + rest);
    var line := title + rest;
    assert forall i :: 0 <= i < |title| ==> line[i] == title[i] && title[i] in title;
    RunLengthIs(line, NotNewline, |title|);
    assert line[..|title|] == title;
    StripOfTrimmed(title);
  }

  lemma {:induction false} LeftStripBlanks(blanks: string, s: string)
    requires (forall c :: c in blanks ==> IsSpace(c)) && s != "" && !IsSpace(s[0])
    ensures LeftStrip(blanks + s) == s
  {
    if blanks == "" {
      assert blanks + s == s;
    } else {
      assert blanks[0] in blanks && (blanks + s)[1..] == blanks[1..] + s;
      LeftStripBlanks(blanks[1..], s);
    }
  }

  /** A slug keeps the words of letters and digits, in lower case. */
  lemma SlugWords(text: string)
    ensures Runs(Slug(text), IsSlugChar) == Runs(Lower(text), IsSlugChar)
  {
    RunsOfJoin(Runs(Lower(text), IsSlugChar), '-', IsSlugChar);
  }

  /** A chunk: the text of its group, numbered from one, under the nearest heading and the nearest top heading. */
  lemma SectionMeaning(groups: seq<Group>, i: nat, maxChars: nat)
    requires i < |groups|
    ensures var parts, c := Flatten(groups[..i + 1]), Sections(groups, maxChars)[i];
            && c.text == Render(groups[i], maxChars)
            && (TitleOf(parts) != "" ==> c.sectionTitle == TitleOf(parts))
            && (ParentOf(parts) != "" ==> c.parentTitle == ParentOf(parts))
            && (c.kind == "section" <==> TitleOf(parts) != "overview")
            && (c.kind == "overview" <==> TitleOf(parts) == "overview")
  {
    SectionAt(groups, i, maxChars);
    assert groups[..i + 1][i] == groups[i];
  }

  // Lines

  /** One line break takes the text before it off as a line; a carriage return and a newline are one break. */
  lemma LineCut(line: string, brk: string, rest: string)
    requires forall c :: c in line ==> !IsLineBreak(c)
    requires brk == "\r\n" || (|brk| == 1 && IsLineBreak(brk[0]))
    requires brk == "\r" ==> rest == "" || rest[0] != '\n'
    ensures SplitLines(line + (brk + rest)) == [line] + SplitLines(rest)
  {
    var s := line + (brk + rest);
    BrokenLine(s, line, brk, rest);
    RunLengthIs(s, NotLineBreak, |line|);
  }

  lemma BrokenLine(s: string, line: string, brk: string, rest: string)
    requires s == line + (brk + rest) && brk != "" && forall c :: c in line ==> !IsLineBreak(c)
    ensures (forall i :: 0 <= i < |line| ==> !IsLineBreak(s[i])) && s[|line|] == brk[0] && s[..|line|] == line
    ensures s[|line| + |brk|..] == rest
    ensures |line| + 1 < |s| ==> s[|line| + 1] == (brk + rest)[1]
  {
    assert forall i :: 0 <= i < |line| ==> s[i] == line[i] && line[i] in line;
  }

  lemma LastLine(line: string)
    requires line != "" && forall c :: c in line ==> !IsLineBreak(c)
    ensures SplitLines(line) == [line]
  {
    assert forall i :: 0 <= i < |line| ==> line[i] in line;
    RunLengthIs(line, NotLineBreak, |line|);
  }

  /** In the normalised text no blank stands before a newline. */
  predicate NoTrailingBlanks(s: string) {
    forall i :: 0 < i < |s| && s[i] == '\n' ==> s[i - 1] == '\n' || !IsSpace(s[i - 1])
  }

  predicate EndsClean(w: string) { (w == "" || !IsSpace(w[|w| - 1])) && '\n' !in w }

  lemma {:induction false} JoinedClean(ws: seq<string>)
    requires forall w :: w in ws ==> EndsClean(w)
    ensures NoTrailingBlanks(Join(ws, "\n"))
  {
    if |ws| == 1 {
      assert ws[0] in ws;
      assert forall i :: 0 <= i < |ws[0]| ==> ws[0][i] in ws[0];
    } else if |ws| > 1 {
      assert ws[0] in ws && forall w :: w in ws[1..] ==> w in ws;
      JoinedClean(ws[1..]);
      LineClean(ws[0], Join(ws[1..], "\n"));
    }
  }

  lemma LineClean(line: string, rest: string)
    requires EndsClean(line) && NoTrailingBlanks(rest)
    ensures NoTrailingBlanks(line + "\n" + rest)
  {
    var s, n := line + "\n" + rest, |line|;
    assert forall i :: 0 <= i < n ==> s[i] == line[i] && line[i] in line;
    forall i | 0 < i < |s| && s[i] == '\n' ensures s[i - 1] == '\n' || !IsSpace(s[i - 1]) {
      if i > n + 1 {
        assert rest[i - n - 1] == s[i] && rest[i - n - 2] == s[i - 1];
      }
    }
  }

  lemma {:induction false} LinesUnbroken(s: string)
    ensures forall w :: w in SplitLines(s) ==> forall c :: c in w ==> !IsLineBreak(c)
    decreases |s|
  {
    if s != "" {
      var n := RunLength(s, NotLineBreak);
      if n < |s| {
        LinesUnbroken(s[BreakEnd(s, n)..]);
      }
    }
  }

  /** The raw parts of an item's text are cut out of its normalised text, whose lines end without blanks. */
  lemma PartsMeaning(text: string) returns (raw: seq<string>, cuts: seq<Cut>)
    ensures NoTrailingBlanks(NormalizeLines(text)) && CutAt(NormalizeLines(text), 0, raw, cuts)
    ensures Parts(text) == Filter(NonEmpty, Map(Strip, raw))
  {
    raw := SplitFrom(NormalizeLines(text), 0, 0);
    cuts := RawParts(NormalizeLines(text));
    LinesUnbroken(Strip(text));
    StrippedClean(SplitLines(Strip(text)));
    JoinedClean(Map(RightStrip, SplitLines(Strip(text))));
  }

  lemma StrippedClean(lines: seq<string>)
    requires forall w :: w in lines ==> forall c :: c in w ==> !IsLineBreak(c)
    ensures forall w :: w in Map(RightStrip, lines) ==> EndsClean(w)
  {
    forall w | w in Map(RightStrip, lines) ensures EndsClean(w) {
      var i :| 0 <= i < |lines| && w == RightStrip(lines[i]);
      assert lines[i] in lines;
      assert forall c :: c in w ==> c in lines[i];
    }
  }

  // Which parts share a chunk

  /** Each further part was no heading, and fitted behind the ones before it. */
  ghost predicate Fits(g: Group, maxChars: nat) {
    forall k :: 1 <= k < |g.bodies| ==>
                  && !IsHeading(g.bodies[k])
                  && |Render(Group(g.overlap, g.bodies[..k]), maxChars)| + |g.bodies[k]| + 2 <= maxChars
  }

  /** A chunk begins with a heading, or with a part that did not fit into the chunk before, whose end it repeats. */
  ghost predicate Follows(before: seq<Group>, g: Group, maxChars: nat, overlapChars: nat) {
    g.bodies != []
    && if before == [] || IsHeading(g.bodies[0]) then g.overlap == ""
       else
         var shown := Render(before[|before| - 1], maxChars);
         |shown| + |g.bodies[0]| + 2 > maxChars && g.overlap == OverlapOf(shown, overlapChars)
  }

  ghost predicate Packed(groups: seq<Group>, maxChars: nat, overlapChars: nat) {
    forall i :: 0 <= i < |groups| ==>
                  Fits(groups[i], maxChars) && Follows(groups[..i], groups[i], maxChars, overlapChars)
  }

  lemma PackedSnoc(groups: seq<Group>, g: Group, maxChars: nat, overlapChars: nat)
    ensures Packed(groups + [g], maxChars, overlapChars)
            <==> Packed(groups, maxChars, overlapChars) && Fits(g, maxChars)
                 && Follows(groups, g, maxChars, overlapChars)
  {
    var all := groups + [g];
    assert all[..|groups|] == groups && all[|groups|] == g;
    assert forall i :: 0 <= i < |groups| ==> all[..i] == groups[..i] && all[i] == groups[i];
    if Packed(all, maxChars, overlapChars) {
      forall i | 0 <= i < |groups|
        ensures Fits(groups[i], maxChars) && Follows(groups[..i], groups[i], maxChars, overlapChars)
      {
        assert Fits(all[i], maxChars) && Follows(all[..i], all[i], maxChars, overlapChars);
      }
    }
  }

  ghost predicate PackedInv(g: Grouping, maxChars: nat, overlapChars: nat) {
    Packed(Close(g), maxChars, overlapChars) && (g.open.bodies == [] ==> g.open == NO_GROUP && g.closed == [])
  }

  lemma FreshFits(overlap: string, part: string, maxChars: nat)
    ensures Fits(Group(overlap, [part]), maxChars)
  {}

  lemma GrownFits(g: Group, part: string, maxChars: nat)
    requires Fits(g, maxChars) && !IsHeading(part) && |Render(g, maxChars)| + |part| + 2 <= maxChars
    ensures Fits(Group(g.overlap, g.bodies + [part]), maxChars)
  {
    var bodies := g.bodies + [part];
    forall k | 1 <= k < |bodies|
      ensures !IsHeading(bodies[k]) && |Render(Group(g.overlap, bodies[..k]), maxChars)| + |bodies[k]| + 2 <= maxChars
    {
      if k < |g.bodies| {
        assert bodies[..k] == g.bodies[..k] && bodies[k] == g.bodies[k];
      } else {
        assert bodies[..k] == g.bodies;
      }
    }
  }

  lemma AddPacked(g: Grouping, part: string, maxChars: nat, overlapChars: nat)
    requires PackedInv(g, maxChars, overlapChars)
    ensures PackedInv(AddPart(g, part, maxChars, overlapChars), maxChars, overlapChars)
  {
    if IsHeading(part) {
      FreshFits("", part, maxChars);
      PackedSnoc(Close(g), Group("", [part]), maxChars, overlapChars);
      assert AddPart(g, part, maxChars, overlapChars) == Grouping(Close(g), Group("", [part]));
    } else if |Render(g.open, maxChars)| + |part| + 2 <= maxChars {
      GrowPacked(g, part, maxChars, overlapChars);
    } else {
      var overlap := OverlapOf(Render(g.open, maxChars), overlapChars);
      FreshFits(overlap, part, maxChars);
      PackedSnoc(Close(g), Group(overlap, [part]), maxChars, overlapChars);
    }
  }

  lemma GrowPacked(g: Grouping, part: string, maxChars: nat, overlapChars: nat)
    requires PackedInv(g, maxChars, overlapChars) && !IsHeading(part)
    requires |Render(g.open, maxChars)| + |part| + 2 <= maxChars
    ensures PackedInv(Grouping(g.closed, Group(g.open.overlap, g.open.bodies + [part])), maxChars, overlapChars)
  {
    var grown := Group(g.open.overlap, g.open.bodies + [part]);
    if g.open.bodies == [] {
      FreshFits("", part, maxChars);
    } else {
      PackedSnoc(g.closed, g.open, maxChars, overlapChars);
      GrownFits(g.open, part, maxChars);
    }
    PackedSnoc(g.closed, grown, maxChars, overlapChars);
  }

  /** The grouping is greedy: a chunk ends only before a heading or a part that does not fit. */
  lemma {:induction false} GroupsPacked(parts: seq<string>, maxChars: nat, overlapChars: nat)
    ensures PackedInv(Grouped(parts, maxChars, overlapChars), maxChars, overlapChars)
    ensures Packed(Groups(parts, maxChars, overlapChars), maxChars, overlapChars)
  {
    if parts != [] {
      GroupsPacked(parts[..|parts| - 1], maxChars, overlapChars);
      AddPacked(Grouped(parts[..|parts| - 1], maxChars, overlapChars), parts[|parts| - 1], maxChars, overlapChars);
    }
  }
}
