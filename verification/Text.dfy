/** The string operations of the Python code, on ASCII text: lower(), split(), join(), strip(), `in`, str(int). */
module Text {
  import opened Seqs

  /** str.isspace on ASCII; regular expressions use the same set for \s. */
  predicate IsSpace(c: char) {
    c == ' ' || '\t' <= c <= '\r' || '\U{1c}' <= c <= '\U{1f}'
  }

  predicate NonSpace(c: char) { !IsSpace(c) }

  predicate IsDigit(c: char) { '0' <= c <= '9' }

  /** A character of the class [a-zA-Z0-9_]. */
  predicate IsWordChar(c: char) {
    'a' <= c <= 'z' || 'A' <= c <= 'Z' || IsDigit(c) || c == '_'
  }

  function LowerChar(c: char): char {
    if 'A' <= c <= 'Z' then c - 'A' + 'a' else c
  }

  function Lower(s: string): (r: string)
    ensures |r| == |s|
  {
    Map(LowerChar, s)
  }

  lemma LowerAppend(a: string, b: string)
    ensures Lower(a + b) == Lower(a) + Lower(b)
  {}

  lemma LowerIdempotent(s: string)
    ensures Lower(Lower(s)) == Lower(s)
  {}

  predicate OccursAt(s: string, t: string, i: int) {
    0 <= i <= |s| - |t| && s[i..i + |t|] == t
  }

  /** The substring test `t in s`. */
  predicate Contains(s: string, t: string) {
    exists i :: 0 <= i <= |s| && OccursAt(s, t, i)
  }

  lemma ContainsPrefix(a: string, b: string, t: string)
    requires a <= b && Contains(a, t)
    ensures Contains(b, t)
  {
    var i :| 0 <= i <= |a| && OccursAt(a, t, i);
    assert b[i..i + |t|] == a[i..i + |t|];
    assert OccursAt(b, t, i);
  }

  predicate EndsWith(s: string, t: string) { |t| <= |s| && s[|s| - |t|..] == t }

  lemma EndsWithTransitive(s: string, t: string, u: string)
    requires EndsWith(s, t) && EndsWith(t, u)
    ensures EndsWith(s, u)
  {
    assert s == s[..|s| - |t|] + t && t == t[..|t| - |u|] + u;
  }

  // Maximal runs of characters of one class.

  function RunLength(s: string, p: char -> bool): (n: nat)
    ensures n <= |s|
    ensures forall i :: 0 <= i < n ==> p(s[i])
    ensures n < |s| ==> !p(s[n])
  {
    if s == "" || !p(s[0]) then 0 else 1 + RunLength(s[1..], p)
  }

  /** A non-empty word over one class of characters. */
  predicate WordOver(w: string, p: char -> bool) {
    w != "" && forall c :: c in w ==> p(c)
  }

  function Runs(s: string, p: char -> bool): (r: seq<string>)
    ensures forall w :: w in r ==> WordOver(w, p)
    decreases |s|
  {
    if s == "" then []
    else if !p(s[0]) then Runs(s[1..], p)
    else
      var n := RunLength(s, p);
      assert WordOver(s[..n], p);
      [s[..n]] + Runs(s[n..], p)
  }

  lemma RunLengthIs(s: string, p: char -> bool, n: nat)
    requires n <= |s| && forall i :: 0 <= i < n ==> p(s[i])
    requires n < |s| ==> !p(s[n])
    ensures RunLength(s, p) == n
  {}

  /** A character outside the class separates the runs on its two sides. */
  lemma {:induction false} RunsSeparated(a: string, c: char, b: string, p: char -> bool)
    requires !p(c)
    ensures Runs(a + [c] + b, p) == Runs(a, p) + Runs(b, p)
    decreases |a|
  {
    var s := a + [c] + b;
    if a == "" {
      assert s[1..] == b;
    } else if !p(a[0]) {
      assert s[1..] == a[1..] + [c] + b;
      RunsSeparated(a[1..], c, b, p);
    } else {
      var n := RunLength(a, p);
      RunLengthIs(s, p, n);
      assert s[..n] == a[..n] && s[n..] == a[n..] + [c] + b;
      assert Runs(s, p) == [s[..n]] + Runs(s[n..], p) && Runs(a, p) == [a[..n]] + Runs(a[n..], p);
      RunsSeparated(a[n..], c, b, p);
    }
  }

  /** `sep.join(ws)`. */
  function Join(ws: seq<string>, sep: string): string {
    if ws == [] then "" else if |ws| == 1 then ws[0] else ws[0] + sep + Join(ws[1..], sep)
  }

  lemma RunsOfWord(w: string, p: char -> bool)
    requires WordOver(w, p)
    ensures Runs(w, p) == [w]
  {
    RunLengthIs(w, p, |w|);
    assert w[..|w|] == w && w[|w|..] == "";
  }

  /** Splitting undoes joining. */
  lemma {:induction false} RunsOfJoin(ws: seq<string>, sep: char, p: char -> bool)
    requires !p(sep)
    requires forall w :: w in ws ==> WordOver(w, p)
    ensures Runs(Join(ws, [sep]), p) == ws
  {
    if |ws| == 1 {
      assert ws[0] in ws && ws == [ws[0]];
      RunsOfWord(ws[0], p);
    } else if |ws| > 1 {
      assert ws[0] in ws && forall w :: w in ws[1..] ==> w in ws;
      RunsSeparated(ws[0], sep, Join(ws[1..], [sep]), p);
      RunsOfWord(ws[0], p);
      RunsOfJoin(ws[1..], sep, p);
    }
  }

  // Words, normalisation and tokens.

  /** str.split() */
  function Words(s: string): seq<string> { Runs(s, NonSpace) }

  /** _normalize_query: lower-case, and one blank between words. */
  function Normalize(s: string): string { Join(Words(Lower(s)), " ") }

  /** _tokens: the maximal runs of [a-zA-Z0-9_] in the lower-cased text. */
  function Tokens(s: string): seq<string> { Runs(Lower(s), IsWordChar) }

  lemma WordsOfNormalize(s: string)
    ensures Words(Normalize(s)) == Words(Lower(s))
  {
    RunsOfJoin(Words(Lower(s)), ' ', NonSpace);
  }

  lemma {:induction false} CollapseKeepsRuns(s: string, p: char -> bool)
    requires forall c :: IsSpace(c) ==> !p(c)
    ensures Runs(Join(Words(s), " "), p) == Runs(s, p)
    decreases |s|
  {
    if s == "" {
    } else if IsSpace(s[0]) {
      CollapseKeepsRuns(s[1..], p);
    } else {
      var n := RunLength(s, NonSpace);
      var w, rest := s[..n], s[n..];
      assert s == w + rest;
      assert Words(s) == [w] + Words(rest);
      if rest == "" {
        assert Words(s) == [w] && s == w;
      } else {
        assert IsSpace(rest[0]) && rest == [rest[0]] + rest[1..];
        assert Words(rest) == Words(rest[1..]);
        assert s == w + [rest[0]] + rest[1..];
        RunsSeparated(w, rest[0], rest[1..], p);
        CollapseKeepsRuns(rest[1..], p);
        var more := Words(rest[1..]);
        if more == [] {
          assert Runs(rest[1..], p) == Runs("", p) == [];
        } else {
          assert ([w] + more)[1..] == more;
          RunsSeparated(w, ' ', Join(more, " "), p);
        }
      }
    }
  }

  lemma {:induction false} LowerJoin(ws: seq<string>, sep: string)
    ensures Lower(Join(ws, sep)) == Join(Map(Lower, ws), Lower(sep))
  {
    if |ws| > 1 {
      LowerJoin(ws[1..], sep);
      assert Map(Lower, ws)[1..] == Map(Lower, ws[1..]);
      LowerAppend(ws[0] + sep, Join(ws[1..], sep));
      LowerAppend(ws[0], sep);
    }
  }

  lemma {:induction false} LoweredRunsAreLower(s: string, p: char -> bool)
    requires Lower(s) == s
    ensures Map(Lower, Runs(s, p)) == Runs(s, p)
    decreases |s|
  {
    if s == "" {
    } else if !p(s[0]) {
      assert Lower(s[1..]) == Lower(s)[1..];
      LoweredRunsAreLower(s[1..], p);
    } else {
      var n := RunLength(s, p);
      assert Lower(s[..n]) == Lower(s)[..n] && Lower(s[n..]) == Lower(s)[n..];
      LoweredRunsAreLower(s[n..], p);
    }
  }

  /** Tokenising does not see letter case or the amount of white space. */
  lemma TokensOfNormalize(s: string)
    ensures Tokens(Normalize(s)) == Tokens(s)
  {
    var t := Lower(s);
    LowerIdempotent(s);
    LoweredRunsAreLower(t, NonSpace);
    LowerJoin(Words(t), " ");
    assert Lower(" ") == " ";
    assert Lower(Normalize(s)) == Normalize(s);
    CollapseKeepsRuns(t, IsWordChar);
  }

  /** Trimmed, and every white-space character is a single blank between two other characters. */
  predicate SingleSpaced(s: string) {
    forall i :: 0 <= i < |s| && IsSpace(s[i]) ==>
                  s[i] == ' ' && 0 < i < |s| - 1 && !IsSpace(s[i - 1]) && !IsSpace(s[i + 1])
  }

  lemma {:induction false} JoinOfWords(s: string)
    requires SingleSpaced(s)
    ensures Join(Words(s), " ") == s
    decreases |s|
  {
    if s != "" {
      var n := RunLength(s, NonSpace);
      var w, rest := s[..n], s[n..];
      assert Words(s) == [w] + Words(rest);
      if n < |s| {
        var tail := rest[1..];
        assert s[n] == ' ' && !IsSpace(s[n + 1]) && tail == s[n + 1..];
        assert forall i :: 0 <= i < |tail| ==> tail[i] == s[n + 1 + i];
        assert SingleSpaced(tail);
        JoinOfWords(tail);
        assert Words(rest) == Words(tail) && Words(tail) != [];
        assert ([w] + Words(tail))[1..] == Words(tail);
        assert s == w + " " + tail;
      } else {
        assert w == s && rest == "";
      }
    }
  }

  // str.strip()

  function LeftStrip(s: string): (r: string)
    ensures r == "" || !IsSpace(r[0])
    ensures |r| <= |s|
  {
    if s != "" && IsSpace(s[0]) then LeftStrip(s[1..]) else s
  }

  function RightStrip(s: string): (r: string)
    ensures r == "" || !IsSpace(r[|r| - 1])
    ensures r <= s
  {
    if s != "" && IsSpace(s[|s| - 1]) then RightStrip(s[..|s| - 1]) else s
  }

  function Strip(s: string): (r: string)
    ensures |r| <= |s|
    ensures r == "" || (!IsSpace(r[0]) && !IsSpace(r[|r| - 1]))
  {
    RightStrip(LeftStrip(s))
  }

  /** Non-empty, with no white space at either end. */
  predicate Trimmed(s: string) {
    s != "" && !IsSpace(s[0]) && !IsSpace(s[|s| - 1])
  }

  lemma StripOfTrimmed(s: string)
    requires Trimmed(s)
    ensures Strip(s) == s
  {}

  lemma {:induction false} RightStripNonEmpty(s: string)
    requires s != "" && !IsSpace(s[0])
    ensures RightStrip(s) != "" && RightStrip(s)[0] == s[0]
  {
    if IsSpace(s[|s| - 1]) {
      RightStripNonEmpty(s[..|s| - 1]);
    }
  }

  lemma {:induction false} RightStripAppend(a: string, b: string)
    requires RightStrip(b) != ""
    ensures RightStrip(a + b) == a + RightStrip(b)
  {
    if IsSpace(b[|b| - 1]) {
      assert (a + b)[..|a + b| - 1] == a + b[..|b| - 1];
      RightStripAppend(a, b[..|b| - 1]);
    }
  }

  /** _dedupe_strings: strip, drop blanks, keep the first of equal values. */
  function Dedupe(values: seq<string>): (r: seq<string>)
    ensures Distinct(r)
    ensures forall w :: w in r <==> exists v :: v in values && w == Strip(v) && w != ""
  {
    var stripped := Map(Strip, values);
    assert forall v :: v in values ==> Strip(v) in stripped;
    Unique(Filter((w: string) => w != "", stripped))
  }

  // str(int)

  function DigitChar(d: nat): char
    requires d < 10
  {
    '0' + d as char
  }

  function NatText(n: nat): (r: string)
    ensures r != "" && forall c :: c in r ==> IsDigit(c)
  {
    if n < 10 then [DigitChar(n)] else NatText(n / 10) + [DigitChar(n % 10)]
  }

  function IntText(n: int): (r: string)
    ensures r != "" && forall c :: c in r ==> IsDigit(c) || c == '-'
  {
    if n >= 0 then NatText(n) else "-" + NatText(-n)
  }

  lemma {:induction false} NatTextInjective(m: nat, n: nat)
    requires NatText(m) == NatText(n)
    ensures m == n
  {
    var a, b := NatText(m), NatText(n);
    assert a[|a| - 1] == DigitChar(m % 10) && b[|b| - 1] == DigitChar(n % 10);
    assert m % 10 == n % 10;
    if m >= 10 && n >= 10 {
      assert NatText(m / 10) == a[..|a| - 1] && NatText(n / 10) == b[..|b| - 1];
      NatTextInjective(m / 10, n / 10);
    } else if m >= 10 || n >= 10 {
      assert false;
    }
  }

  lemma IntTextInjective(m: int, n: int)
    requires IntText(m) == IntText(n)
    ensures m == n
  {
    if m >= 0 && n >= 0 {
      NatTextInjective(m, n);
    } else if m < 0 && n < 0 {
      assert NatText(-m) == IntText(m)[1..] && NatText(-n) == IntText(n)[1..];
      NatTextInjective(-m, -n);
    } else {
      assert false by {
        var k := if m >= 0 then m else n;
        assert NatText(k)[0] in NatText(k);
      }
    }
  }
}
