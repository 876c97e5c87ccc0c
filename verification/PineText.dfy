/** Scanning Pine code: comments are stripped, string literals blanked, and wording is escaped into literals. */
module PineText {
  import opened Seqs
  import opened Text

  // _strip_pine_strings as an automaton

  datatype Mode = Outside | Inside(quote: char, escaped: bool)

  function Next(m: Mode, c: char): Mode {
    match m
    case Outside => if c == '\'' || c == '"' then Inside(c, false) else Outside
    case Inside(quote, true) => Inside(quote, false)
    case Inside(quote, false) => if c == '\\' then Inside(quote, true) else if c == quote then Outside else m
  }

  function Shown(m: Mode, c: char): char {
    match m
    case Outside => c
    case Inside(_, true) => ' '
    case Inside(quote, false) => if c != '\\' && (c == quote || c == '\n') then c else ' '
  }

  function Scan(m: Mode, s: string): (r: string)
    ensures |r| == |s|
    decreases |s|
  {
    if s == "" then "" else [Shown(m, s[0])] + Scan(Next(m, s[0]), s[1..])
  }

  function ModeAfter(m: Mode, s: string): Mode
    decreases |s|
  {
    if s == "" then m else ModeAfter(Next(m, s[0]), s[1..])
  }

  lemma {:induction false} ScanAppend(m: Mode, s: string, t: string)
    ensures Scan(m, s + t) == Scan(m, s) + Scan(ModeAfter(m, s), t)
    ensures ModeAfter(m, s + t) == ModeAfter(ModeAfter(m, s), t)
    decreases |s|
  {
    if s == "" {
      assert s + t == t;
    } else {
      assert (s + t)[1..] == s[1..] + t;
      ScanAppend(Next(m, s[0]), s[1..], t);
    }
  }

  /** _strip_pine_strings */
  method StripStrings(code: string) returns (chars: string)
    ensures chars == Scan(Outside, code)
  {
    chars := "";
    var quote: Option<char> := None;
    var escaped := false;
    for i := 0 to |code|
      invariant quote.None? ==> !escaped
      invariant var m := if quote.None? then Outside else Inside(quote.value, escaped);
                m == ModeAfter(Outside, code[..i]) && chars == Scan(Outside, code[..i])
    {
      assert code[..i + 1] == code[..i] + [code[i]];
      ScanAppend(Outside, code[..i], [code[i]]);
      var c := code[i];
      if quote.Some? {
        if escaped {
          chars := chars + " ";
          escaped := false;
          continue;
        }
        if c == '\\' {
          chars := chars + " ";
          escaped := true;
          continue;
        }
        if c == quote.value {
          chars := chars + [c];
          quote := None;
          continue;
        }
        chars := chars + (if c == '\n' then "\n" else " ");
        continue;
      }
      if c == '\'' || c == '"' {
        quote := Some(c);
      }
      chars := chars + [c];
    }
    assert code[..|code|] == code;
  }

  predicate Quoting(m: Mode) { m.Inside? ==> m.quote == '\'' || m.quote == '"' }

  function Calm(m: Mode): Mode { if m.Outside? then m else Inside(m.quote, false) }

  /** Scanning scanned code changes nothing, from any state of the scanner. */
  lemma {:induction false} ScanIdempotent(m: Mode, s: string)
    requires Quoting(m)
    ensures Scan(Calm(m), Scan(m, s)) == Scan(m, s)
    decreases |s|
  {
    if s != "" {
      ScanIdempotent(Next(m, s[0]), s[1..]);
      var r := Scan(m, s);
      assert r[1..] == Scan(Next(m, s[0]), s[1..]);
      assert Next(Calm(m), r[0]) == Calm(Next(m, s[0]));
    }
  }

  /**
   * Text outside literals is unchanged; inside, only line breaks and the closing quote are, and only when no
   * backslash precedes them as an escape.
   */
  lemma {:induction false} ScanAt(m: Mode, s: string, i: nat)
    requires i < |s|
    ensures Scan(m, s)[i] == Shown(ModeAfter(m, s[..i]), s[i])
    decreases i
  {
    if i > 0 {
      assert s[..i][1..] == s[1..][..i - 1];
      ScanAt(Next(m, s[0]), s[1..], i - 1);
    }
  }

  // _escape

  function ReplaceChar(s: string, c: char, image: string): string {
    if s == "" then "" else (if s[0] == c then image else [s[0]]) + ReplaceChar(s[1..], c, image)
  }

  /** _escape: backslashes first, then double quotes. */
  function Escape(value: string): string { ReplaceChar(ReplaceChar(value, '\\', "\\\\"), '"', "\\\"") }

  /** Text in which every backslash starts a pair, and double quotes occur only as the second of a pair. */
  predicate Units(s: string) {
    s == "" || if s[0] == '\\' then |s| >= 2 && (s[1] == '\\' || s[1] == '"') && Units(s[2..])
               else s[0] != '"' && Units(s[1..])
  }

  function Unescape(s: string): string {
    if s == "" then "" else if s[0] == '\\' && |s| >= 2 then [s[1]] + Unescape(s[2..]) else [s[0]] + Unescape(s[1..])
  }

  function EscapeChar(c: char): string { if c == '\\' || c == '"' then ['\\', c] else [c] }

  lemma {:induction false} ReplaceAppend(s: string, t: string, c: char, image: string)
    ensures ReplaceChar(s + t, c, image) == ReplaceChar(s, c, image) + ReplaceChar(t, c, image)
  {
    if s == "" {
      assert s + t == t;
    } else {
      assert (s + t)[1..] == s[1..] + t;
      ReplaceAppend(s[1..], t, c, image);
    }
  }

  lemma ReplaceOne(d: char, c: char, image: string)
    ensures ReplaceChar([d], c, image) == if d == c then image else [d]
  {
    assert [d][1..] == "" && ReplaceChar("", c, image) == "";
  }

  /** The two replacements together escape each character on its own. */
  lemma EscapeCons(v: string)
    requires v != ""
    ensures Escape(v) == EscapeChar(v[0]) + Escape(v[1..])
  {
    var head := if v[0] == '\\' then "\\\\" else [v[0]];
    var rest := ReplaceChar(v[1..], '\\', "\\\\");
    assert ReplaceChar(v, '\\', "\\\\") == head + rest;
    ReplaceAppend(head, rest, '"', "\\\"");
    if v[0] == '\\' {
      assert head == ['\\'] + ['\\'];
      ReplaceAppend(['\\'], ['\\'], '"', "\\\"");
      ReplaceOne('\\', '"', "\\\"");
    } else {
      ReplaceOne(v[0], '"', "\\\"");
    }
  }

  /** Escaped text is a sequence of units, and reading the units back gives the text. */
  lemma {:induction false} EscapeRoundTrip(v: string)
    ensures Units(Escape(v)) && Unescape(Escape(v)) == v
  {
    if v != "" {
      EscapeRoundTrip(v[1..]);
      EscapeCons(v);
      var e := Escape(v);
      if v[0] == '\\' || v[0] == '"' {
        assert e[2..] == Escape(v[1..]);
      } else {
        assert e[1..] == Escape(v[1..]);
      }
      assert v == [v[0]] + v[1..];
    }
  }

  // A quoted escaped text is one literal

  const LITERAL := Inside('"', false)

  /** A literal body as the scanner shows it. */
  predicate Blank(s: string) { forall c :: c in s ==> c == ' ' || c == '\n' }

  lemma {:induction false} UnitsBlanked(s: string)
    requires Units(s)
    ensures ModeAfter(LITERAL, s) == LITERAL && Blank(Scan(LITERAL, s))
  {
    if s != "" {
      if s[0] == '\\' {
        UnitsBlanked(s[2..]);
        assert s[1..][1..] == s[2..];
        var between := Next(LITERAL, s[0]);
        assert Scan(between, s[1..]) == [' '] + Scan(LITERAL, s[2..]);
        assert ModeAfter(between, s[1..]) == ModeAfter(LITERAL, s[2..]);
      } else {
        UnitsBlanked(s[1..]);
      }
    }
  }

  function Quoted(body: string): string { "\"" + body + "\"" }

  /** A quoted run of units scans to its two quotes around blanks, and scanning goes on outside. */
  lemma QuotedUnits(s: string, rest: string)
    requires Units(s)
    ensures Scan(Outside, Quoted(s) + rest) == Quoted(Scan(LITERAL, s)) + Scan(Outside, rest)
    ensures ModeAfter(Outside, Quoted(s)) == Outside
  {
    UnitsBlanked(s);
    ScanAppend(Outside, "\"" + s + "\"", rest);
    ScanAppend(Outside, "\"" + s, "\"");
    ScanAppend(Outside, "\"", s);
    assert ModeAfter(Outside, "\"") == LITERAL && Scan(Outside, "\"") == "\"";
    assert ModeAfter(LITERAL, "\"") == Outside && Scan(LITERAL, "\"") == "\"";
  }

  /** For any wording: the quoted escaped text is exactly one blanked literal, after which scanning resumes cleanly. */
  lemma EscapedIsOneLiteral(before: string, v: string, after: string)
    requires ModeAfter(Outside, before) == Outside
    ensures Scan(Outside, before + Quoted(Escape(v)) + after)
            == Scan(Outside, before) + Quoted(Scan(LITERAL, Escape(v))) + Scan(Outside, after)
    ensures Blank(Scan(LITERAL, Escape(v)))
  {
    EscapeRoundTrip(v);
    UnitsBlanked(Escape(v));
    assert before + Quoted(Escape(v)) + after == before + (Quoted(Escape(v)) + after);
    ScanAppend(Outside, before, Quoted(Escape(v)) + after);
    QuotedUnits(Escape(v), after);
  }

  // _strip_pine_comments

  predicate Starts(s: string, c: char, d: char) { |s| >= 2 && s[0] == c && s[1] == d }

  /** No two neighbouring characters are c and d. */
  predicate Free(s: string, c: char, d: char) { forall i :: 0 <= i < |s| - 1 ==> !(s[i] == c && s[i + 1] == d) }

  /** What follows the first end-of-comment marker. */
  function AfterClose(s: string): (r: Option<string>)
    ensures r.Some? ==> |r.value| <= |s|
  {
    if |s| < 2 then None else if Starts(s, '*', '/') then Some(s[2..]) else AfterClose(s[1..])
  }

  /** The first substitution: block comments, each up to the nearest end marker; an unclosed one stays. */
  function StripBlocks(s: string): string
    decreases |s|
  {
    if s == "" then ""
    else if Starts(s, '/', '*') && AfterClose(s[2..]).Some? then StripBlocks(AfterClose(s[2..]).value)
    else [s[0]] + StripBlocks(s[1..])
  }

  /** From the first line break on. */
  function FromBreak(s: string): (r: string)
    ensures |r| <= |s|
    ensures Starts(s, '/', '/') ==> |r| < |s|
  {
    if s == "" || s[0] == '\n' then s else FromBreak(s[1..])
  }

  /** The second substitution: line comments, up to the end of the line. */
  function StripLines(s: string): string
    decreases |s|
  {
    if s == "" then ""
    else if Starts(s, '/', '/') then StripLines(FromBreak(s))
    else [s[0]] + StripLines(s[1..])
  }

  function StripComments(code: string): string { StripLines(StripBlocks(code)) }

  /** The code in which blocked constructs are looked for, before it is lower-cased. */
  function Executable(code: string): string { Scan(Outside, StripComments(code)) }

  /** The last line holds a line comment. */
  predicate EndsInComment(s: string) {
    exists i :: 0 <= i < |s| - 1 && Starts(s[i..], '/', '/') && FromBreak(s[i..]) == ""
  }

  // Comments and escapes do not interact

  predicate Special(c: char) { c == '\\' || c == '"' }

  lemma EscapeStarts(v: string, c: char, d: char)
    requires !Special(c) && !Special(d)
    ensures Starts(Escape(v), c, d) <==> Starts(v, c, d)
    ensures v != "" ==>
              Escape(v) != "" && (Special(v[0]) ==> Escape(v)[0] == '\\') && (!Special(v[0]) ==> Escape(v)[0] == v[0])
  {
    if v != "" {
      EscapeCons(v);
      if |v| >= 2 {
        EscapeCons(v[1..]);
      }
    }
  }

  lemma EscapeTail(v: string)
    requires v != ""
    ensures Special(v[0]) ==>
              |Escape(v)| >= 2 && Escape(v)[0] == '\\' && Escape(v)[1] == v[0] && Escape(v)[2..] == Escape(v[1..])
    ensures !Special(v[0]) ==> |Escape(v)| >= 1 && Escape(v)[0] == v[0] && Escape(v)[1..] == Escape(v[1..])
  {
    EscapeCons(v);
  }

  lemma {:induction false} AfterCloseEscape(v: string)
    ensures AfterClose(Escape(v)) == if AfterClose(v).Some? then Some(Escape(AfterClose(v).value)) else None
  {
    if v != "" {
      EscapeStarts(v, '*', '/');
      EscapeTail(v);
      AfterCloseEscape(v[1..]);
      if Special(v[0]) {
        assert Escape(v)[1..][1..] == Escape(v[1..]);
      } else if Starts(v, '*', '/') {
        EscapeTail(v[1..]);
        assert Escape(v)[2..] == Escape(v[2..]) by {
          assert v[1..][1..] == v[2..];
          assert Escape(v)[1..][1..] == Escape(v)[2..];
        }
      }
    }
  }

  lemma {:induction false} StripBlocksEscape(v: string)
    ensures StripBlocks(Escape(v)) == Escape(StripBlocks(v))
    decreases |v|
  {
    if v != "" {
      EscapeStarts(v, '/', '*');
      EscapeTail(v);
      StripBlocksEscape(v[1..]);
      if Starts(v, '/', '*') {
        EscapeTail(v[1..]);
        assert Escape(v)[2..] == Escape(v[2..]) by { assert v[1..][1..] == v[2..]; assert Escape(v)[1..][1..]
            == Escape(v)[2..]; }
        AfterCloseEscape(v[2..]);
        if AfterClose(v[2..]).Some? {
          StripBlocksEscape(AfterClose(v[2..]).value);
        } else {
          KeptHead(v);
        }
      } else {
        KeptHead(v);
        if Special(v[0]) {
          assert Escape(v)[1..][1..] == Escape(v[1..]);
        }
      }
    }
  }

  lemma KeptHead(v: string)
    requires v != ""
    ensures Escape([v[0]] + StripBlocks(v[1..])) == EscapeChar(v[0]) + Escape(StripBlocks(v[1..]))
    ensures Escape([v[0]] + StripLines(v[1..])) == EscapeChar(v[0]) + Escape(StripLines(v[1..]))
  {
    EscapeCons([v[0]] + StripBlocks(v[1..]));
    EscapeCons([v[0]] + StripLines(v[1..]));
  }

  lemma {:induction false} FromBreakEscape(v: string)
    ensures FromBreak(Escape(v)) == Escape(FromBreak(v))
  {
    if v != "" {
      EscapeTail(v);
      FromBreakEscape(v[1..]);
      if Special(v[0]) {
        assert Escape(v)[1..][1..] == Escape(v[1..]);
      }
    }
  }

  lemma {:induction false} StripLinesEscape(v: string)
    ensures StripLines(Escape(v)) == Escape(StripLines(v))
    decreases |v|
  {
    if v != "" {
      EscapeStarts(v, '/', '/');
      EscapeTail(v);
      StripLinesEscape(v[1..]);
      KeptHead(v);
      if Starts(v, '/', '/') {
        FromBreakEscape(v);
        StripLinesEscape(FromBreak(v));
      } else if Special(v[0]) {
        assert Escape(v)[1..][1..] == Escape(v[1..]);
      }
    }
  }

  // Stripping comments around a quote

  lemma {:induction false} NoClose(s: string)
    requires Free(s, '*', '/')
    ensures AfterClose(s) == None
  {
    if |s| >= 2 {
      NoClose(s[1..]);
    }
  }

  lemma {:induction false} NoBlocks(s: string)
    requires Free(s, '*', '/')
    ensures StripBlocks(s) == s
  {
    if s != "" {
      NoBlocks(s[1..]);
      if |s| >= 2 {
        NoClose(s[2..]);
      }
    }
  }

  lemma {:induction false} CloseBefore(s: string, t: string)
    requires t != "" && t[0] == '"' && Free(t, '*', '/')
    ensures AfterClose(s + t) == if AfterClose(s).Some? then Some(AfterClose(s).value + t) else None
  {
    if s == "" {
      assert s + t == t;
      NoClose(t);
    } else {
      assert (s + t)[1..] == s[1..] + t;
      assert |s| >= 2 ==> (s + t)[2..] == s[2..] + t;
      CloseBefore(s[1..], t);
    }
  }

  lemma NoBlockHere(s: string, t: string)
    requires t != "" && t[0] == '"' && Free(t, '*', '/')
    requires s != "" && !(Starts(s, '/', '*') && AfterClose(s[2..]).Some?)
    ensures StripBlocks(s + t) == [s[0]] + StripBlocks(s[1..] + t)
    ensures StripBlocks(s) == [s[0]] + StripBlocks(s[1..])
  {
    assert (s + t)[1..] == s[1..] + t;
    if |s| >= 2 {
      assert (s + t)[2..] == s[2..] + t;
      CloseBefore(s[2..], t);
    }
  }

  /** Block comments of the front stay in the front when a quote comes next and no comment ends behind it. */
  lemma {:induction false} BlocksBefore(s: string, t: string)
    requires t != "" && t[0] == '"' && Free(t, '*', '/')
    ensures StripBlocks(s + t) == StripBlocks(s) + t
    decreases |s|
  {
    if s == "" {
      assert s + t == t;
      NoBlocks(t);
    } else if Starts(s, '/', '*') && AfterClose(s[2..]).Some? {
      assert (s + t)[2..] == s[2..] + t;
      CloseBefore(s[2..], t);
      BlocksBefore(AfterClose(s[2..]).value, t);
    } else {
      NoBlockHere(s, t);
      BlocksBefore(s[1..], t);
      ConsAppend(s[0], StripBlocks(s[1..]), t);
    }
  }

  /** A character that starts no block comment is kept. */
  lemma KeptByBlocks(c: char, s: string)
    requires !Starts([c] + s, '/', '*')
    ensures StripBlocks([c] + s) == [c] + StripBlocks(s)
  {
    assert ([c] + s)[1..] == s;
  }

  lemma {:induction false} BlocksBehind(s: string, t: string)
    requires t != "" && t[0] == '"' && Free(s, '/', '*')
    ensures StripBlocks(s + t) == s + StripBlocks(t)
  {
    if s == "" {
      assert s + t == t;
    } else {
      HeadOf(s, t);
      KeptByBlocks(s[0], s[1..] + t);
      BlocksBehind(s[1..], t);
      ConsAppend(s[0], s[1..], StripBlocks(t));
    }
  }

  lemma HeadOf(s: string, t: string)
    requires s != "" && t != ""
    ensures s + t == [s[0]] + (s[1..] + t)
    ensures (s[1..] + t)[0] == (if |s| >= 2 then s[1] else t[0]) && [s[0]] + s[1..] == s
  {}

  lemma {:induction false} FirstClose(comment: string, rest: string)
    requires Free(comment, '*', '/')
    ensures AfterClose(comment + ("*/" + rest)) == Some(rest)
  {
    var s := comment + ("*/" + rest);
    if comment == "" {
      assert s == "*/" + rest && s[2..] == rest;
    } else {
      assert s[1..] == comment[1..] + ("*/" + rest);
      assert s[1] == if |comment| >= 2 then comment[1] else '*';
      FirstClose(comment[1..], rest);
    }
  }

  /** A block comment is taken out, up to its nearest end marker; what follows is stripped in turn. */
  lemma {:induction false} BlockRemoved(before: string, comment: string, rest: string)
    requires Free(before, '/', '*') && Free(comment, '*', '/')
    ensures StripBlocks(before + ("/*" + (comment + ("*/" + rest)))) == before + StripBlocks(rest)
  {
    var block := "/*" + (comment + ("*/" + rest));
    if before == "" {
      FirstClose(comment, rest);
      assert before + block == block && block[2..] == comment + ("*/" + rest);
    } else {
      HeadOf(before, block);
      KeptByBlocks(before[0], before[1..] + block);
      BlockRemoved(before[1..], comment, rest);
      ConsAppend(before[0], before[1..], StripBlocks(rest));
    }
  }

  lemma {:induction false} FromBreakAppend(s: string, t: string)
    ensures FromBreak(s + t) == if FromBreak(s) == "" then FromBreak(t) else FromBreak(s) + t
  {
    if s == "" {
      assert s + t == t;
    } else {
      assert (s + t)[1..] == s[1..] + t;
      if s[0] != '\n' {
        FromBreakAppend(s[1..], t);
      }
    }
  }

  lemma EndsInCommentTail(s: string, k: nat)
    requires k <= |s| && forall i :: 0 <= i < k ==> !(Starts(s[i..], '/', '/') && FromBreak(s[i..]) == "")
    ensures EndsInComment(s) <==> EndsInComment(s[k..])
  {
    if EndsInComment(s) {
      var i :| 0 <= i < |s| - 1 && Starts(s[i..], '/', '/') && FromBreak(s[i..]) == "";
      assert s[k..][i - k..] == s[i..];
    }
    if EndsInComment(s[k..]) {
      var i :| 0 <= i < |s[k..]| - 1 && Starts(s[k..][i..], '/', '/') && FromBreak(s[k..][i..]) == "";
      assert s[k..][i..] == s[k + i..];
    }
  }

  lemma {:induction false} FromBreakSuffix(s: string) returns (k: nat)
    ensures k <= |s| && FromBreak(s) == s[k..] && (forall i :: 0 <= i < k ==> FromBreak(s[i..]) == s[k..])
  {
    if s == "" || s[0] == '\n' {
      k := 0;
    } else {
      var j := FromBreakSuffix(s[1..]);
      k := j + 1;
      forall i | 0 <= i < k ensures FromBreak(s[i..]) == s[k..] {
        if i > 0 {
          assert s[1..][i - 1..] == s[i..];
        }
      }
    }
  }

  lemma NoLineHere(s: string, t: string)
    requires t != "" && t[0] == '"' && s != "" && !Starts(s, '/', '/')
    ensures StripLines(s + t) == [s[0]] + StripLines(s[1..] + t) && StripLines(s) == [s[0]] + StripLines(s[1..])
    ensures EndsInComment(s) <==> EndsInComment(s[1..])
  {
    assert (s + t)[1..] == s[1..] + t && !Starts(s + t, '/', '/');
    assert s[0..] == s;
    EndsInCommentTail(s, 1);
  }

  /** A line comment of the front reaches over the quote behind it exactly when the front ends in one. */
  lemma {:induction false} LinesAround(s: string, t: string)
    requires t != "" && t[0] == '"'
    ensures StripLines(s + t) == StripLines(s) + StripLines(if EndsInComment(s) then FromBreak(t) else t)
    decreases |s|
  {
    if s == "" {
      assert s + t == t;
    } else if Starts(s, '/', '/') {
      FromBreakAppend(s, t);
      CommentSkipped(s);
      if FromBreak(s) != "" {
        LinesAround(FromBreak(s), t);
      }
    } else {
      NoLineHere(s, t);
      LinesAround(s[1..], t);
      ConsAppend(s[0], StripLines(s[1..]), StripLines(if EndsInComment(s) then FromBreak(t) else t));
    }
  }

  lemma CommentSkipped(s: string)
    requires Starts(s, '/', '/')
    ensures EndsInComment(s) <==> FromBreak(s) == "" || EndsInComment(FromBreak(s))
  {
    assert s[0..] == s;
    if FromBreak(s) != "" {
      var k := FromBreakSuffix(s);
      EndsInCommentTail(s, k);
    }
  }

  lemma {:induction false} EndsInCommentEscape(v: string)
    ensures EndsInComment(Escape(v)) <==> EndsInComment(v)
  {
    if v != "" {
      EndsInCommentEscape(v[1..]);
      EscapeStarts(v, '/', '/');
      EscapeTail(v);
      FromBreakEscape(v);
      var e := Escape(v);
      assert e[0..] == e && v[0..] == v;
      if FromBreak(v) != "" {
        EscapeTail(FromBreak(v));
      }
      assert FromBreak(e) == "" <==> FromBreak(v) == "";
      if Starts(v, '/', '/') && FromBreak(v) == "" {
        assert EndsInComment(v) && EndsInComment(e);
      } else {
        EndsInCommentTail(v, 1);
        if Special(v[0]) {
          assert e[1] == v[0] && !Starts(e[1..], '/', '/');
          EndsInCommentTail(e, 2);
        } else {
          EndsInCommentTail(e, 1);
        }
      }
    }
  }

  // A quoted escaped text in a program with comments

  /**
   * The code before and behind a literal: no block comment reaches in from either side, and it begins outside
   * comments and literals.
   */
  predicate Frame(before: string, after: string) {
    && Free(before, '/', '*') && !EndsInComment(before) && ModeAfter(Outside, StripLines(before)) == Outside
    && Free(after, '*', '/')
  }

  lemma FreeQuoted(after: string, c: char, d: char)
    requires Free(after, c, d) && c != '"' && d != '"'
    ensures Free("\"" + after, c, d)
  {}

  /** Stripping block comments only changes the wording. */
  lemma BlocksAround(before: string, v: string, after: string)
    requires Frame(before, after)
    ensures StripBlocks(before + Quoted(Escape(v)) + after)
            == before + (("\"" + Escape(StripBlocks(v))) + ("\"" + after))
  {
    var tail, body := "\"" + after, "\"" + Escape(v);
    FreeQuoted(after, '*', '/');
    assert before + Quoted(Escape(v)) + after == before + (body + tail);
    BlocksBehind(before, body + tail);
    BlocksBefore(body, tail);
    StripBlocksEscape(v);
    assert body[1..] == Escape(v);
    assert StripBlocks(body) == "\"" + Escape(StripBlocks(v));
  }

  lemma OpenedLines(w: string)
    ensures StripLines("\"" + Escape(w)) == "\"" + Escape(StripLines(w))
    ensures EndsInComment("\"" + Escape(w)) <==> EndsInComment(w)
  {
    var shown := "\"" + Escape(w);
    StripLinesEscape(w);
    EndsInCommentEscape(w);
    assert shown[1..] == Escape(w) && shown[0..] == shown;
    EndsInCommentTail(shown, 1);
  }

  lemma ClosedLines(after: string)
    ensures StripLines("\"" + after) == "\"" + StripLines(after) && FromBreak("\"" + after) == FromBreak(after)
  {
    assert ("\"" + after)[1..] == after;
  }

  /** What remains of the code around one literal, whether or not its wording ends in a comment. */
  lemma StrippedAround(before: string, v: string, after: string)
    requires Frame(before, after)
    ensures StripComments(before + Quoted(Escape(v)) + after)
            == StripLines(before) + ("\"" + Escape(StripComments(v)))
               + (if EndsInComment(StripBlocks(v)) then StripLines(FromBreak(after)) else "\"" + StripLines(after))
  {
    var w := StripBlocks(v);
    var shown, tail := "\"" + Escape(w), "\"" + after;
    BlocksAround(before, v, after);
    LinesAround(before, shown + tail);
    LinesAround(shown, tail);
    OpenedLines(w);
    ClosedLines(after);
    if EndsInComment(w) {
      AppendAssoc(StripLines(before), StripLines(shown), StripLines(FromBreak(tail)));
    } else {
      AppendAssoc(StripLines(before), StripLines(shown), StripLines(tail));
    }
  }

  lemma NoCommentsNothing(before: string, after: string)
    requires Free(before, '/', '*') && Free(after, '*', '/')
    ensures StripBlocks(before) == before && StripBlocks(after) == after
  {
    NoBlocks(after);
    BlocksBehind(before, "\"");
    BlocksBefore(before, "\"");
    assert StripBlocks("\"") == "\"";
    assert (StripBlocks(before) + "\"")[..|StripBlocks(before)|] == StripBlocks(before);
    assert (before + "\"")[..|before|] == before;
  }

  lemma {:induction false} StripLinesOfRest(s: string)
    ensures |StripLines(FromBreak(s))| <= |StripLines(s)|
  {
    if s != "" && s[0] != '\n' && !Starts(s, '/', '/') {
      StripLinesOfRest(s[1..]);
    }
  }

  ghost predicate OneLiteral(before: string, v: string, after: string) {
    exists x :: Blank(x)
        && Executable(before + Quoted(Escape(v)) + after) == Executable(before) + Quoted(x) + Executable(after)
  }

  /**
   * With comments: the executable text shows exactly one blanked literal, except when the wording ends in a comment.
   */
  lemma ClosedLiteral(before: string, v: string, after: string)
    requires Frame(before, after) && !EndsInComment(StripBlocks(v))
    ensures Executable(before + Quoted(Escape(v)) + after)
            == Executable(before) + Quoted(Scan(LITERAL, Escape(StripComments(v)))) + Executable(after)
    ensures Blank(Scan(LITERAL, Escape(StripComments(v))))
  {
    StrippedAround(before, v, after);
    NoCommentsNothing(before, after);
    var head, rest := StripLines(before), StripLines(after);
    Requote(head, Escape(StripComments(v)), rest);
    EscapedIsOneLiteral(head, StripComments(v), rest);
  }

  lemma Requote(head: string, body: string, rest: string)
    ensures head + ("\"" + body) + ("\"" + rest) == head + Quoted(body) + rest
  {}

  lemma SwallowedQuote(before: string, v: string, after: string)
    requires Frame(before, after) && EndsInComment(StripBlocks(v))
    ensures !OneLiteral(before, v, after)
  {
    StrippedAround(before, v, after);
    NoCommentsNothing(before, after);
    var head, body, rest := StripLines(before), Escape(StripComments(v)), StripLines(FromBreak(after));
    EscapeRoundTrip(StripComments(v));
    OpenLiteral(head, body, rest);
    StripLinesOfRest(after);
    QuoteTooLate(Executable(before), Scan(LITERAL, body), Scan(LITERAL, rest), Executable(after));
  }

  /** A literal that is still open keeps the text behind it inside. */
  lemma OpenLiteral(head: string, body: string, rest: string)
    requires ModeAfter(Outside, head) == Outside && Units(body)
    ensures Scan(Outside, head + ("\"" + body) + rest)
            == Scan(Outside, head) + ("\"" + (Scan(LITERAL, body) + Scan(LITERAL, rest)))
    ensures Blank(Scan(LITERAL, body))
  {
    UnitsBlanked(body);
    assert head + ("\"" + body) + rest == head + ("\"" + (body + rest));
    ScanAppend(Outside, head, "\"" + (body + rest));
    ScanAppend(Outside, "\"", body + rest);
    assert ModeAfter(Outside, "\"") == LITERAL && Scan(Outside, "\"") == "\"";
    ScanAppend(LITERAL, body, rest);
  }

  lemma QuoteTooLate(front: string, blanks: string, rest: string, after: string)
    requires Blank(blanks) && |rest| <= |after|
    ensures forall x :: Blank(x) ==> front + ("\"" + (blanks + rest)) != front + Quoted(x) + after
  {
    forall x | Blank(x) ensures front + ("\"" + (blanks + rest)) != front + Quoted(x) + after {
      QuoteMisplaced(front, blanks, rest, x, after);
    }
  }

  lemma QuoteMisplaced(front: string, blanks: string, rest: string, x: string, after: string)
    requires Blank(blanks) && |rest| <= |after|
    ensures front + ("\"" + (blanks + rest)) != front + Quoted(x) + after
  {
    var l, r := front + ("\"" + (blanks + rest)), front + Quoted(x) + after;
    if |l| == |r| {
      var i := |front| + 1 + |x|;
      assert r[i] == '"';
      assert l[i] == blanks[|x|];
      assert blanks[|x|] in blanks;
    }
  }

  /**
   * The exact condition: one blanked literal, exactly when the wording without block comments does not end in a line
   * comment.
   */
  lemma OneLiteralIff(before: string, v: string, after: string)
    requires Frame(before, after)
    ensures OneLiteral(before, v, after) <==> !EndsInComment(StripBlocks(v))
  {
    if EndsInComment(StripBlocks(v)) {
      SwallowedQuote(before, v, after);
    } else {
      ClosedLiteral(before, v, after);
    }
  }

  /** The wording of two slashes swallows its closing quote. */
  lemma SlashesBreakOut(before: string, v: string, after: string)
    requires Frame(before, after) && v == ['/', '/']
    ensures !OneLiteral(before, v, after)
  {
    NoBlocks(v);
    assert v[0..] == v && v[1..] == ['/'];
    assert FromBreak(['/']) == "" && FromBreak(v) == "";
    assert EndsInComment(v);
    OneLiteralIff(before, v, after);
  }

  // Whole generated programs

  /** A value to quote, and the code up to the next one. */
  datatype Part = Part(value: string, code: string)

  /** The generated text: the opening code, then the quoted escaped values with the code behind each. */
  function Rendered(head: string, parts: seq<Part>): string
    decreases |parts|
  {
    if parts == [] then head else head + Quoted(Escape(parts[0].value)) + Rendered(parts[0].code, parts[1..])
  }

  /** Wording without comment markers. */
  predicate Plain(v: string) { Free(v, '/', '/') && Free(v, '/', '*') && Free(v, '*', '/') }

  /** Code of the generator: it ends outside comments and literals, and has no block comments. */
  predicate CodePiece(code: string) {
    && Free(code, '/', '*') && Free(code, '*', '/')
    && !EndsInComment(code) && ModeAfter(Outside, StripLines(code)) == Outside
  }

  predicate Generated(head: string, parts: seq<Part>) {
    CodePiece(head) && forall p :: p in parts ==> CodePiece(p.code) && Plain(p.value)
  }

  lemma {:induction false} FreeEscape(v: string, c: char, d: char)
    requires Free(v, c, d) && !Special(c) && !Special(d)
    ensures Free(Escape(v), c, d)
  {
    if v != "" {
      FreeEscape(v[1..], c, d);
      EscapeStarts(v, c, d);
      EscapeTail(v);
      FreeCons(Escape(v), c, d);
      if Special(v[0]) {
        FreeCons(Escape(v)[1..], c, d);
        assert Escape(v)[1..][1..] == Escape(v[1..]);
      }
    }
  }

  lemma FreeCons(s: string, c: char, d: char)
    requires s != "" && !Starts(s, c, d) && Free(s[1..], c, d)
    ensures Free(s, c, d)
  {
    forall i | 0 <= i < |s| - 1 ensures !(s[i] == c && s[i + 1] == d) {
      if i > 0 {
        assert s[1..][i - 1] == s[i] && s[1..][i] == s[i + 1];
      }
    }
  }

  lemma FreeAppend(s: string, t: string, c: char, d: char)
    requires Free(s, c, d) && Free(t, c, d) && t != "" && t[0] != d
    ensures Free(s + t, c, d)
  {}

  lemma {:induction false} RenderedFree(head: string, parts: seq<Part>)
    requires Generated(head, parts)
    ensures Free(Rendered(head, parts), '*', '/')
    decreases |parts|
  {
    if parts != [] {
      var v, rest := parts[0].value, Rendered(parts[0].code, parts[1..]);
      assert parts[0] in parts;
      RenderedFree(parts[0].code, parts[1..]);
      FreeEscape(v, '*', '/');
      FreeQuoted(rest, '*', '/');
      FreeAppend(Escape(v), "\"" + rest, '*', '/');
      FreeQuoted(Escape(v) + ("\"" + rest), '*', '/');
      var tail := "\"" + (Escape(v) + ("\"" + rest));
      FreeAppend(head, tail, '*', '/');
      assert head + Quoted(Escape(v)) + rest == head + tail;
    }
  }

  /** The executable text of the program, piece by piece. */
  function Shape(head: string, parts: seq<Part>): string
    decreases |parts|
  {
    if parts == [] then Executable(head)
    else Executable(head) + Quoted(Scan(LITERAL, Escape(parts[0].value))) + Shape(parts[0].code, parts[1..])
  }

  lemma {:induction false} NoLines(s: string)
    requires Free(s, '/', '/')
    ensures StripLines(s) == s && !EndsInComment(s)
  {
    if s != "" {
      NoLines(s[1..]);
    }
  }

  /** Each value shows as one blanked literal of its own length, and all the code between stays executable. */
  lemma {:induction false} ProgramShape(head: string, parts: seq<Part>)
    requires Generated(head, parts)
    ensures Executable(Rendered(head, parts)) == Shape(head, parts)
    decreases |parts|
  {
    if parts != [] {
      assert parts[0] in parts;
      ProgramShape(parts[0].code, parts[1..]);
      RenderedFree(parts[0].code, parts[1..]);
      NoBlocks(parts[0].value);
      NoLines(parts[0].value);
      ClosedLiteral(head, parts[0].value, Rendered(parts[0].code, parts[1..]));
    }
  }

  // The blocked-construct verdict

  /**
   * A blocked construct: a test of a stretch of the executable text and of the character before it (a blank at
   * the start of the text).
   */
  type Pattern = (char, string) -> bool

  /** Patterns that start with a letter and cannot run over a double quote. */
  ghost predicate WithinCode(p: Pattern) {
    forall c, w :: p(c, w) ==> w != "" && '"' !in w && w[0] != ' ' && w[0] != '\n'
  }

  function CharBefore(t: string, i: nat): char
    requires i <= |t|
  {
    if i == 0 then ' ' else t[i - 1]
  }

  predicate FoundAt(p: Pattern, t: string, i: nat, j: nat) { i <= j <= |t| && p(CharBefore(t, i), t[i..j]) }

  /** re.search */
  ghost predicate Found(p: Pattern, t: string) { exists i: nat, j: nat :: FoundAt(p, t, i, j) }

  lemma FoundShifted(p: Pattern, front: string, t: string, i: nat, j: nat)
    requires 0 < i <= j <= |t|
    ensures FoundAt(p, t, i, j) <==> FoundAt(p, front + t, |front| + i, |front| + j)
  {
    assert (front + t)[|front| + i..|front| + j] == t[i..j];
    assert CharBefore(front + t, |front| + i) == CharBefore(t, i);
  }

  lemma FoundInFront(p: Pattern, front: string, t: string, i: nat, j: nat)
    requires i <= j <= |front|
    ensures FoundAt(p, front, i, j) <==> FoundAt(p, front + t, i, j)
  {
    assert (front + t)[i..j] == front[i..j];
    assert CharBefore(front + t, i) == CharBefore(front, i);
  }

  /** A blanked literal separates: a construct is found in the code before it or in the code behind it. */
  lemma FoundAround(p: Pattern, h: string, x: string, t: string)
    requires WithinCode(p) && Blank(x)
    ensures Found(p, h + Quoted(x) + t) <==> Found(p, h) || Found(p, "\"" + t)
  {
    var front, tail := h + ("\"" + x), "\"" + t;
    var all := front + tail;
    assert h + Quoted(x) + t == all;
    if Found(p, h) {
      var i: nat, j: nat :| FoundAt(p, h, i, j);
      FoundInFront(p, h, ("\"" + x) + tail, i, j);
      assert h + (("\"" + x) + tail) == all;
    }
    if Found(p, tail) {
      var i: nat, j: nat :| FoundAt(p, tail, i, j);
      assert i < j && tail[i..j][0] == tail[i] && tail[i] in tail[i..j];
      FoundShifted(p, front, tail, i, j);
    }
    if Found(p, all) {
      var i: nat, j: nat :| FoundAt(p, all, i, j);
      StretchApart(p, h, x, t, all, i, j);
      if j <= |h| {
        FoundInFront(p, h, ("\"" + x) + tail, i, j);
        assert h + (("\"" + x) + tail) == all;
      } else {
        FoundShifted(p, front, tail, i - |front|, j - |front|);
      }
    }
  }

  lemma StretchApart(p: Pattern, h: string, x: string, t: string, all: string, i: nat, j: nat)
    requires WithinCode(p) && Blank(x) && all == (h + ("\"" + x)) + ("\"" + t) && FoundAt(p, all, i, j)
    ensures j <= |h| || |h| + 1 + |x| < i
  {
    var w := all[i..j];
    assert forall k :: i <= k < j ==> w[k - i] == all[k] && all[k] in w;
    assert all[|h|] == '"' && all[|h| + 1 + |x|] == '"';
    assert forall k :: |h| < k < |h| + 1 + |x| ==> all[k] == x[k - |h| - 1] && all[k] in x;
    assert i < j && w[0] == all[i];
  }

  /** The verdict looks at the code pieces alone. */
  ghost predicate FoundInPieces(p: Pattern, head: string, parts: seq<Part>)
    decreases |parts|
  {
    if parts == [] then Found(p, head)
    else Found(p, head) || FoundInPieces(p, "\"" + Executable(parts[0].code), parts[1..])
  }

  lemma {:induction false} VerdictByPieces(p: Pattern, front: string, head: string, parts: seq<Part>)
    requires WithinCode(p)
    ensures Found(p, front + Shape(head, parts)) <==> FoundInPieces(p, front + Executable(head), parts)
    decreases |parts|
  {
    if parts != [] {
      var x, rest := Scan(LITERAL, Escape(parts[0].value)), Shape(parts[0].code, parts[1..]);
      EscapeRoundTrip(parts[0].value);
      UnitsBlanked(Escape(parts[0].value));
      assert front + (Executable(head) + Quoted(x) + rest) == (front + Executable(head)) + Quoted(x) + rest;
      FoundAround(p, front + Executable(head), x, rest);
      VerdictByPieces(p, "\"", parts[0].code, parts[1..]);
    }
  }

  ghost predicate SameCode(ps: seq<Part>, qs: seq<Part>) {
    |ps| == |qs| && forall i :: 0 <= i < |ps| ==> ps[i].code == qs[i].code
  }

  lemma {:induction false} PiecesAgree(p: Pattern, head: string, ps: seq<Part>, qs: seq<Part>)
    requires SameCode(ps, qs)
    ensures FoundInPieces(p, head, ps) <==> FoundInPieces(p, head, qs)
    decreases |ps|
  {
    if ps != [] {
      PiecesAgree(p, "\"" + Executable(ps[0].code), ps[1..], qs[1..]);
    }
  }

  /** Programs that differ in their wording alone get the same verdict about blocked constructs. */
  lemma VerdictIgnoresWording(p: Pattern, head: string, ps: seq<Part>, qs: seq<Part>)
    requires WithinCode(p) && Generated(head, ps) && Generated(head, qs) && SameCode(ps, qs)
    ensures Found(p, Executable(Rendered(head, ps))) <==> Found(p, Executable(Rendered(head, qs)))
  {
    ProgramShape(head, ps);
    ProgramShape(head, qs);
    assert "" + Shape(head, ps) == Shape(head, ps) && "" + Shape(head, qs) == Shape(head, qs);
    VerdictByPieces(p, "", head, ps);
    VerdictByPieces(p, "", head, qs);
    PiecesAgree(p, "" + Executable(head), ps, qs);
  }

  /** A call of the named construct: at a word boundary, in any case, with blanks before the parenthesis. */
  function CallOf(name: string): Pattern {
    (c: char, w: string) =>
      !IsWordChar(c) && |w| > |name| && Lower(w[..|name|]) == name
      && (forall k :: |name| <= k < |w| - 1 ==> IsSpace(w[k])) && w[|w| - 1] == '('
  }

  /** The constructs blocked for PineForge previews. */
  const BLOCKED := ["alert", "alertcondition", "request.seed", "request.security"]

  predicate Dotted(name: string) { name != "" && name[0] != '.' && forall c :: c in name ==> IsWordChar(c) || c == '.' }

  lemma CallsWithinCode(name: string)
    requires Dotted(name)
    ensures WithinCode(CallOf(name))
  {
    forall c, w | CallOf(name)(c, w) ensures '"' !in w && w[0] != ' ' && w[0] != '\n' {
      forall k | 0 <= k < |w| ensures w[k] != '"' {
        if k < |name| {
          assert LowerChar(w[k]) == name[k] && name[k] in name;
        }
      }
      assert LowerChar(w[0]) == name[0] && name[0] in name;
    }
  }

  lemma BlockedDotted(name: string)
    requires name in BLOCKED
    ensures Dotted(name)
  {}

  /** The pineforge_blocked_constructs check passes. */
  ghost predicate NothingBlocked(code: string) {
    forall name :: name in BLOCKED ==> !Found(CallOf(name), Executable(code))
  }

  /** Generated programs that differ in their wording alone pass or fail the check together. */
  lemma CheckIgnoresWording(head: string, ps: seq<Part>, qs: seq<Part>)
    requires Generated(head, ps) && Generated(head, qs) && SameCode(ps, qs)
    ensures NothingBlocked(Rendered(head, ps)) <==> NothingBlocked(Rendered(head, qs))
  {
    forall name | name in BLOCKED
      ensures Found(CallOf(name), Executable(Rendered(head, ps)))
              <==> Found(CallOf(name), Executable(Rendered(head, qs)))
    {
      BlockedDotted(name);
      CallsWithinCode(name);
      VerdictIgnoresWording(CallOf(name), head, ps, qs);
    }
  }

  // Code with a blocked call

  /** What ends outside literals shows its last character. */
  lemma {:induction false} LastShown(m: Mode, s: string)
    requires s != "" && ModeAfter(m, s) == Outside
    ensures Scan(m, s)[|s| - 1] == s[|s| - 1]
    decreases |s|
  {
    if |s| > 1 {
      LastShown(Next(m, s[0]), s[1..]);
    } else {
      assert s[1..] == "";
    }
  }

  lemma {:induction false} ShownOutside(s: string)
    requires forall c :: c in s ==> c != '"' && c != '\''
    ensures Scan(Outside, s) == s && ModeAfter(Outside, s) == Outside
  {
    if s != "" {
      assert s[0] in s && forall c :: c in s[1..] ==> c in s;
      ShownOutside(s[1..]);
    }
  }

  /**
   * Code without comment markers fails the check if it calls a blocked construct outside literals: its name in any
   * case at a word boundary, perhaps white space, and a parenthesis. What the code goes on with does not matter.
   */
  lemma BlockedCallFails(before: string, name: string, word: string, blanks: string, after: string)
    requires name in ["alert", "alertcondition", "request.seed", "request.security"] && Lower(word) == name
    requires forall c :: c in blanks ==> IsSpace(c)
    requires ModeAfter(Outside, before) == Outside && (before == "" || !IsWordChar(before[|before| - 1]))
    requires Plain(before + ((word + blanks + "(") + after))
    ensures !NothingBlocked(before + ((word + blanks + "(") + after))
  {
    BlockedDotted(name);
    CalledFound(before, name, word, blanks, after, word + blanks + "(");
    assert Found(CallOf(name), Executable(before + ((word + blanks + "(") + after)));
  }

  lemma CalledFound(before: string, name: string, word: string, blanks: string, after: string, call: string)
    requires Dotted(name) && Lower(word) == name && call == word + blanks + "("
    requires forall c :: c in blanks ==> IsSpace(c)
    requires ModeAfter(Outside, before) == Outside && (before == "" || !IsWordChar(before[|before| - 1]))
    requires Plain(before + (call + after))
    ensures Found(CallOf(name), Executable(before + (call + after)))
  {
    CallUnquoted(name, word, blanks);
    ExecutableAround(before, call, after);
    BoundaryShown(before, call + Scan(Outside, after));
    CallMatches(name, word, blanks, call, Scan(Outside, before), Scan(Outside, after));
  }

  lemma BoundaryShown(before: string, rest: string)
    requires ModeAfter(Outside, before) == Outside && (before == "" || !IsWordChar(before[|before| - 1]))
    ensures !IsWordChar(CharBefore(Scan(Outside, before) + rest, |before|))
  {
    if before != "" {
      LastShown(Outside, before);
    }
  }

  lemma ExecutableAround(before: string, call: string, after: string)
    requires Plain(before + (call + after)) && ModeAfter(Outside, before) == Outside
    requires forall c :: c in call ==> c != '"' && c != '\''
    ensures Executable(before + (call + after)) == Scan(Outside, before) + (call + Scan(Outside, after))
  {
    NoBlocks(before + (call + after));
    NoLines(before + (call + after));
    ShownOutside(call);
    ScanAppend(Outside, before, call + after);
    ScanAppend(Outside, call, after);
  }

  lemma CallUnquoted(name: string, word: string, blanks: string)
    requires Dotted(name) && Lower(word) == name && forall c :: c in blanks ==> IsSpace(c)
    ensures forall c :: c in word + blanks + "(" ==> c != '"' && c != '\''
  {
    forall c | c in word ensures c != '"' && c != '\'' {
      var i :| 0 <= i < |word| && word[i] == c;
      assert LowerChar(word[i]) == name[i] && name[i] in name;
    }
  }

  lemma CallMatches(name: string, word: string, blanks: string, call: string, front: string, rest: string)
    requires name != "" && Lower(word) == name && call == word + blanks + "(" && forall c :: c in blanks ==> IsSpace(c)
    requires !IsWordChar(CharBefore(front + (call + rest), |front|))
    ensures Found(CallOf(name), front + (call + rest))
  {
    var t := front + (call + rest);
    assert t[|front|..|front| + |call|] == call;
    assert call[..|name|] == word;
    assert forall k :: |name| <= k < |call| - 1 ==> call[k] == blanks[k - |name|] && blanks[k - |name|] in blanks;
    assert FoundAt(CallOf(name), t, |front|, |front| + |call|);
  }
}
