/** The Pine scripts that generate_pine writes: fixed code around quoted wording. */
module PineGenerator {
  import opened Text
  import opened PineText

  datatype ScriptType = Indicator | Strategy

  /** Code up to an opening parenthesis, and behind it. */
  function Call(name: string, arguments: string): string { name + "(" + arguments }

  /** A quoted text and the code behind it. */
  function Shows(shown: string, after: string): string { Quoted(shown) + after }

  const CONFIRMED := "fast, slow) and barstate.isconfirmed"

  const SIGNAL_LINES := [Call("fast = ta.sma", "close, 9)"), Call("slow = ta.sma", "close, 21)")]

  const CROSS_LINES := [Call("longSignal = ta.crossover", CONFIRMED), Call("exitSignal = ta.crossunder", CONFIRMED)]

  const PLOT_LINES := [
    Call("plot", "fast, color=color.orange, title=") + Shows("Fast SMA", ")"),
    Call("plot", "slow, color=color.blue, title=") + Shows("Slow SMA", ")")]

  const BELOW_BAR := ", location=location.belowbar"
  const ABOVE_BAR := ", location=location.abovebar"

  const SHAPE_LINES := [
    Call("plotshape", "longSignal, title=")
    + Shows("Long signal", ", style=shape.triangleup" + BELOW_BAR + ", color=color.green)"),
    Call("plotshape", "exitSignal, title=")
    + Shows("Exit signal", ", style=shape.triangledown" + ABOVE_BAR + ", color=color.red)")]

  const INDICATOR_LINES := SIGNAL_LINES + CROSS_LINES + PLOT_LINES + SHAPE_LINES + [""]

  const INPUT_LINES := [
    Call("riskPercent = input.float", "1.0, ") + Shows("Risk percent", ", minval=0.1, maxval=10.0)"),
    Call("stopLossPct = input.float", "2.0, ") + Shows("Stop loss percent", ", minval=0.1)"),
    Call("takeProfitPct = input.float", "4.0, ") + Shows("Take profit percent", ", minval=0.1)")]

  const CONDITION_LINES := [
    Call("longCondition = ta.crossover", CONFIRMED),
    Call("flatCondition = ta.crossunder", CONFIRMED)]

  const ENTRY_LINES := [
    "if longCondition" + " and strategy.position_size == 0",
    Call("    strategy.entry", "") + Shows("Long", ", strategy.long)"),
    "if strategy.position_size > 0"]

  const AVERAGE := "strategy.position_avg_price"
  const HUNDREDTH := " /" + " 100)"

  const PRICE_LINES := [
    "    stopPrice = " + AVERAGE + (Call(" * ", "1 - stopLossPct") + HUNDREDTH),
    "    limitPrice = " + AVERAGE + (Call(" * ", "1 + takeProfitPct") + HUNDREDTH)]

  const EXIT_LINES := [
    Call("    strategy.exit", "") + Shows("Long exit", ", ")
    + Shows("Long", ", stop=stopPrice" + ", limit=limitPrice)"),
    "if flatCondition",
    Call("    strategy.close", "") + Shows("Long", ")")]

  const STRATEGY_LINES :=
    INPUT_LINES + SIGNAL_LINES + CONDITION_LINES + ENTRY_LINES + PRICE_LINES + EXIT_LINES + PLOT_LINES + [""]

  function Opening(t: ScriptType): string { Call(if t.Indicator? then "indicator" else "strategy", "") }

  function Settings(t: ScriptType): string {
    ", overlay=true"
    + (if t.Indicator? then ")"
       else ", commission_type=strategy.commission"
            + (".percent, commission_value=0.1" + ", slippage=1, pyramiding=0)"))
  }

  function Body(t: ScriptType): seq<string> { if t.Indicator? then INDICATOR_LINES else STRATEGY_LINES }

  const VERSION := "//" + "@version=6"

  /** The texts that come from the specification: the title, and the notes as the note filter leaves them. */
  datatype Wording = Wording(title: string, entry: string, exit: string, risk: string)

  const ENTRY_NOTE := "entryNote = "
  const EXIT_NOTE := "exitNote = "
  const RISK_NOTE := "riskNote = "

  function Declaration(t: ScriptType, title: string): string { Opening(t) + Quoted(Escape(title)) + Settings(t) }

  function Note(name: string, wording: string): string { name + Quoted(Escape(wording)) }

  function Script(t: ScriptType, w: Wording): seq<string> {
    [VERSION] + ([Declaration(t, w.title)]
      + ([Note(ENTRY_NOTE, w.entry)] + ([Note(EXIT_NOTE, w.exit)] + ([Note(RISK_NOTE, w.risk)] + Body(t)))))
  }

  /** generate_pine; every script type but the indicator gives a strategy. */
  function GeneratePine(t: ScriptType, w: Wording): string { Join(Script(t, w), "\n") }

  // The script as fixed code around quoted values

  function Front(t: ScriptType): string { VERSION + "\n" + Opening(t) }

  function Ending(t: ScriptType): string { "\n" + Join(Body(t), "\n") }

  function Parts(t: ScriptType, w: Wording): seq<Part> {
    [Part(w.title, Settings(t) + ("\n" + ENTRY_NOTE))]
    + ([Part(w.entry, "\n" + EXIT_NOTE)] + ([Part(w.exit, "\n" + RISK_NOTE)] + ([Part(w.risk, Ending(t))] + [])))
  }

  lemma JoinMore(a: string, rest: seq<string>, sep: string)
    requires rest != []
    ensures Join([a] + rest, sep) == a + sep + Join(rest, sep)
  {
    assert ([a] + rest)[1..] == rest;
  }

  lemma RenderedMore(head: string, p: Part, rest: seq<Part>)
    ensures Rendered(head, [p] + rest) == head + Quoted(Escape(p.value)) + Rendered(p.code, rest)
  {
    assert ([p] + rest)[1..] == rest;
  }

  lemma NoteThen(t: string, name: string, x: string, sep: string, rest: string)
    ensures t + sep + ((name + x) + sep + rest) == t + (sep + name) + x + (sep + rest)
  {}

  /** A note line behind some code, and what follows it. */
  lemma NoteLine(before: string, name: string, value: string, body: seq<string>, code: string, parts: seq<Part>)
    requires body != [] && "\n" + Join(body, "\n") == Rendered(code, parts)
    ensures before + "\n" + Join([Note(name, value)] + body, "\n")
            == Rendered(before + ("\n" + name), [Part(value, code)] + parts)
  {
    JoinMore(Note(name, value), body, "\n");
    RenderedMore(before + ("\n" + name), Part(value, code), parts);
    NoteThen(before, name, Quoted(Escape(value)), "\n", Join(body, "\n"));
  }

  lemma Nothing(s: string)
    ensures "" + s == s
  {}

  /** A note line at the start of a line. */
  lemma FreshNote(name: string, value: string, body: seq<string>, code: string, parts: seq<Part>)
    requires body != [] && "\n" + Join(body, "\n") == Rendered(code, parts)
    ensures "\n" + Join([Note(name, value)] + body, "\n") == Rendered("\n" + name, [Part(value, code)] + parts)
  {
    NoteLine("", name, value, body, code, parts);
    Nothing("\n" + name);
    Nothing("\n");
  }

  lemma Opened(version: string, opening: string, title: string, settings: string, sep: string, rest: string)
    ensures version + sep + ((opening + title + settings) + sep + rest)
            == (version + sep + opening) + title + (settings + sep + rest)
  {}

  /** The declaration line behind the version, and what follows it. */
  lemma DeclarationLine(t: ScriptType, title: string, body: seq<string>, code: string, parts: seq<Part>)
    requires body != [] && Settings(t) + "\n" + Join(body, "\n") == Rendered(code, parts)
    ensures Join([VERSION] + ([Declaration(t, title)] + body), "\n") == Rendered(Front(t), [Part(title, code)] + parts)
  {
    JoinMore(VERSION, [Declaration(t, title)] + body, "\n");
    JoinMore(Declaration(t, title), body, "\n");
    RenderedMore(Front(t), Part(title, code), parts);
    Opened(VERSION, Opening(t), Quoted(Escape(title)), Settings(t), "\n", Join(body, "\n"));
  }

  /** The script is its fixed code around the quoted title and notes. */
  lemma GeneratedText(t: ScriptType, w: Wording)
    ensures GeneratePine(t, w) == Rendered(Front(t), Parts(t, w))
  {
    var risk := [Note(RISK_NOTE, w.risk)] + Body(t);
    var exit := [Note(EXIT_NOTE, w.exit)] + risk;
    var riskParts := [Part(w.risk, Ending(t))] + [];
    var exitParts := [Part(w.exit, "\n" + RISK_NOTE)] + riskParts;
    var entryParts := [Part(w.entry, "\n" + EXIT_NOTE)] + exitParts;
    FreshNote(RISK_NOTE, w.risk, Body(t), Ending(t), []);
    FreshNote(EXIT_NOTE, w.exit, risk, "\n" + RISK_NOTE, riskParts);
    NoteLine(Settings(t), ENTRY_NOTE, w.entry, exit, "\n" + EXIT_NOTE, exitParts);
    DeclarationLine(t, w.title, [Note(ENTRY_NOTE, w.entry)] + exit, Settings(t) + ("\n" + ENTRY_NOTE), entryParts);
  }

  // The fixed code: it ends outside comments and literals, and calls nothing that is blocked

  /** How the text right before the parenthesis of a blocked call ends. */
  predicate BlockedEnd(c: char, d: char) {
    var c', d' := LowerChar(c), LowerChar(d);
    || (IsSpace(d) && (IsSpace(c) || c' == 't' || c' == 'n' || c' == 'd' || c' == 'y'))
    || (c' == 'r' && d' == 't') || (c' == 'o' && d' == 'n') || (c' == 'e' && d' == 'd') || (c' == 't' && d' == 'y')
  }

  predicate CallsAllowed(t: string) {
    forall i :: 0 <= i < |t| && t[i] == '(' ==> i >= 2 && !BlockedEnd(t[i - 2], t[i - 1])
  }

  /** No quotes, backslashes, slashes or parentheses that open, and no star in front. */
  predicate Quiet(s: string) {
    && (forall c :: c in s ==> c != '"' && c != '\'' && c != '\\' && c != '/' && c != '(')
    && (s == "" || s[0] != '*')
  }

  /** No comments, no open literal, no blocked call, and nothing in front that could end a comment marker. */
  predicate Closed(s: string) {
    && Free(s, '/', '/') && Free(s, '/', '*') && Free(s, '*', '/')
    && (s == "" || (s[0] != '/' && s[0] != '*'))
    && ModeAfter(Outside, s) == Outside && CallsAllowed(Scan(Outside, s))
  }

  ghost predicate AllClosed(lines: seq<string>) { forall l :: l in lines ==> Closed(l) }

  lemma {:induction false} StaysOutside(s: string)
    requires forall c :: c in s ==> c != '"' && c != '\''
    ensures ModeAfter(Outside, s) == Outside && Scan(Outside, s) == s
  {
    if s != "" {
      assert s[0] in s && forall c :: c in s[1..] ==> c in s;
      StaysOutside(s[1..]);
    }
  }

  lemma QuietClosed(s: string)
    requires Quiet(s)
    ensures Closed(s)
  {
    assert forall i :: 0 <= i < |s| ==> s[i] in s;
    StaysOutside(s);
  }

  lemma {:induction false} StaysInside(s: string)
    requires forall c :: c in s ==> c != '"' && c != '\\'
    ensures ModeAfter(LITERAL, s) == LITERAL && Blank(Scan(LITERAL, s))
  {
    if s != "" {
      assert s[0] in s && forall c :: c in s[1..] ==> c in s;
      StaysInside(s[1..]);
    }
  }

  lemma BlankCalls(blanks: string)
    requires Blank(blanks)
    ensures CallsAllowed(Quoted(blanks))
  {
    assert forall i :: 0 <= i < |blanks| ==> Quoted(blanks)[i + 1] == blanks[i] && blanks[i] in blanks;
  }

  lemma QuotedClosed(s: string)
    requires Quiet(s)
    ensures Closed(Quoted(s))
  {
    assert forall i :: 0 <= i < |s| ==> s[i] in s;
    StaysInside(s);
    ScanAppend(Outside, "\"", s);
    ScanAppend(Outside, "\"" + s, "\"");
    assert Scan(Outside, Quoted(s)) == Quoted(Scan(LITERAL, s));
    BlankCalls(Scan(LITERAL, s));
  }

  lemma CallsAppend(s: string, t: string)
    requires CallsAllowed(s) && CallsAllowed(t)
    ensures CallsAllowed(s + t)
  {
    var r := s + t;
    forall i | 0 <= i < |r| && r[i] == '(' ensures i >= 2 && !BlockedEnd(r[i - 2], r[i - 1]) {
      if i >= |s| {
        assert t[i - |s|] == '(' && i - |s| >= 2;
        assert r[i - 1] == t[i - |s| - 1] && r[i - 2] == t[i - |s| - 2];
      }
    }
  }

  lemma ClosedAppend(s: string, t: string)
    requires Closed(s) && Closed(t)
    ensures Closed(s + t)
  {
    ScanAppend(Outside, s, t);
    CallsAppend(Scan(Outside, s), Scan(Outside, t));
  }

  predicate AllowedName(name: string) {
    Quiet(name) && |name| >= 2 && !BlockedEnd(name[|name| - 2], name[|name| - 1])
  }

  lemma NoSlashFree(s: string)
    requires '/' !in s
    ensures Free(s, '/', '/') && Free(s, '/', '*') && Free(s, '*', '/')
  {
    assert forall i :: 0 <= i < |s| ==> s[i] in s;
  }

  lemma NameCalls(name: string)
    requires AllowedName(name)
    ensures CallsAllowed(name + "(")
  {
    var s := name + "(";
    assert forall i :: 0 <= i < |name| ==> s[i] == name[i] && name[i] in name;
  }

  lemma NameClosed(name: string)
    requires AllowedName(name)
    ensures Closed(name + "(")
  {
    NoSlashFree(name + "(");
    StaysOutside(name + "(");
    NameCalls(name);
  }

  lemma CallClosed(name: string, arguments: string)
    requires AllowedName(name) && Quiet(arguments)
    ensures Closed(Call(name, arguments))
  {
    NameClosed(name);
    QuietClosed(arguments);
    ClosedAppend(name + "(", arguments);
  }

  lemma ShowsClosed(shown: string, after: string)
    requires Quiet(shown) && Quiet(after)
    ensures Closed(Shows(shown, after))
  {
    QuotedClosed(shown);
    QuietClosed(after);
    ClosedAppend(Quoted(shown), after);
  }

  /** A call whose last argument is quoted. */
  lemma CallShows(name: string, arguments: string, shown: string, after: string)
    requires AllowedName(name) && Quiet(arguments) && Quiet(shown) && Quiet(after)
    ensures Closed(Call(name, arguments) + Shows(shown, after))
  {
    CallClosed(name, arguments);
    ShowsClosed(shown, after);
    ClosedAppend(Call(name, arguments), Shows(shown, after));
  }

  lemma QuietAppend(s: string, t: string)
    requires Quiet(s) && Quiet(t)
    ensures Quiet(s + t)
  {}

  lemma {:induction false} JoinClosed(lines: seq<string>)
    requires AllClosed(lines)
    ensures Closed(Join(lines, "\n"))
  {
    if lines == [] {
      QuietClosed("");
    } else {
      assert lines[0] in lines;
      if |lines| > 1 {
        JoinClosed(lines[1..]);
        QuietClosed("\n");
        ClosedAppend(lines[0], "\n");
        ClosedAppend(lines[0] + "\n", Join(lines[1..], "\n"));
      }
    }
  }

  lemma ClosedIsCode(s: string)
    requires Closed(s)
    ensures CodePiece(s) && Executable(s) == Scan(Outside, s)
  {
    NoLines(s);
    NoBlocks(s);
  }

  // Every line of the templates

  lemma SignalTexts()
    ensures AllowedName("fast = ta.sma") && AllowedName("slow = ta.sma") && Quiet("close, 9)") && Quiet("close, 21)")
  {}

  lemma SignalLinesClosed()
    ensures AllClosed(SIGNAL_LINES)
  {
    SignalTexts();
    CallClosed("fast = ta.sma", "close, 9)");
    CallClosed("slow = ta.sma", "close, 21)");
  }

  lemma ConfirmedText()
    ensures Quiet(CONFIRMED)
  {}

  lemma CrossText()
    ensures AllowedName("longSignal = ta.crossover")
  {}

  lemma UnderText()
    ensures AllowedName("exitSignal = ta.crossunder")
  {}

  lemma CrossLinesClosed()
    ensures AllClosed(CROSS_LINES)
  {
    ConfirmedText();
    CrossText();
    UnderText();
    CallClosed("longSignal = ta.crossover", CONFIRMED);
    CallClosed("exitSignal = ta.crossunder", CONFIRMED);
  }

  lemma LongText()
    ensures AllowedName("longCondition = ta.crossover")
  {}

  lemma FlatText()
    ensures AllowedName("flatCondition = ta.crossunder")
  {}

  lemma ConditionLinesClosed()
    ensures AllClosed(CONDITION_LINES)
  {
    ConfirmedText();
    LongText();
    FlatText();
    CallClosed("longCondition = ta.crossover", CONFIRMED);
    CallClosed("flatCondition = ta.crossunder", CONFIRMED);
  }

  lemma PlotTexts()
    ensures AllowedName("plot") && Quiet("Fast SMA") && Quiet("Slow SMA") && Quiet(")")
  {}

  lemma PlotArguments()
    ensures Quiet("fast, color=color.orange, title=") && Quiet("slow, color=color.blue, title=")
  {}

  lemma PlotLinesClosed()
    ensures AllClosed(PLOT_LINES)
  {
    PlotTexts();
    PlotArguments();
    CallShows("plot", "fast, color=color.orange, title=", "Fast SMA", ")");
    CallShows("plot", "slow, color=color.blue, title=", "Slow SMA", ")");
  }

  lemma BarTexts()
    ensures Quiet(BELOW_BAR) && Quiet(ABOVE_BAR)
  {}

  lemma StyleTexts()
    ensures Quiet(", style=shape.triangleup") && Quiet(", style=shape.triangledown")
  {}

  lemma ShapeTexts()
    ensures AllowedName("plotshape") && Quiet("longSignal, title=") && Quiet("exitSignal, title=")
  {}

  lemma ShapeNames()
    ensures Quiet("Long signal") && Quiet("Exit signal")
    ensures Quiet(", color=color.green)") && Quiet(", color=color.red)")
  {}

  lemma ShapeClosed(name: string, arguments: string, shown: string, style: string, bar: string, color: string)
    requires AllowedName(name) && Quiet(arguments) && Quiet(shown) && Quiet(style) && Quiet(bar) && Quiet(color)
    ensures Closed(Call(name, arguments) + Shows(shown, style + bar + color))
  {
    QuietAppend(style, bar);
    QuietAppend(style + bar, color);
    CallShows(name, arguments, shown, style + bar + color);
  }

  lemma ShapeLinesClosed()
    ensures AllClosed(SHAPE_LINES)
  {
    BarTexts();
    StyleTexts();
    ShapeTexts();
    ShapeNames();
    ShapeClosed("plotshape", "longSignal, title=", "Long signal", ", style=shape.triangleup", BELOW_BAR,
                ", color=color.green)");
    ShapeClosed("plotshape", "exitSignal, title=", "Exit signal", ", style=shape.triangledown", ABOVE_BAR,
                ", color=color.red)");
  }

  lemma InputTexts()
    ensures AllowedName("riskPercent = input.float") && AllowedName("stopLossPct = input.float")
    ensures Quiet("1.0, ") && Quiet("2.0, ") && Quiet("4.0, ")
  {}

  lemma ProfitTexts()
    ensures AllowedName("takeProfitPct = input.float") && Quiet("Take profit percent")
  {}

  lemma InputNames()
    ensures Quiet("Risk percent") && Quiet("Stop loss percent")
    ensures Quiet(", minval=0.1, maxval=10.0)") && Quiet(", minval=0.1)")
  {}

  lemma InputLinesClosed()
    ensures AllClosed(INPUT_LINES)
  {
    InputTexts();
    ProfitTexts();
    InputNames();
    CallShows("riskPercent = input.float", "1.0, ", "Risk percent", ", minval=0.1, maxval=10.0)");
    CallShows("stopLossPct = input.float", "2.0, ", "Stop loss percent", ", minval=0.1)");
    CallShows("takeProfitPct = input.float", "4.0, ", "Take profit percent", ", minval=0.1)");
  }

  lemma EntryTexts()
    ensures Quiet("if longCondition") && Quiet(" and strategy.position_size == 0")
  {}

  lemma HeldTexts()
    ensures Quiet("if strategy.position_size > 0")
  {}

  lemma EntryCall()
    ensures AllowedName("    strategy.entry") && Quiet("") && Quiet("Long") && Quiet(", strategy.long)")
  {}

  lemma ThreeClosed(s: string, t: string, u: string)
    requires Closed(s) && Closed(t) && Closed(u)
    ensures AllClosed([s, t, u])
  {}

  lemma QuietTwo(s: string, t: string)
    requires Quiet(s) && Quiet(t)
    ensures Closed(s + t)
  {
    QuietAppend(s, t);
    QuietClosed(s + t);
  }

  lemma EntryLinesClosed()
    ensures AllClosed(ENTRY_LINES)
  {
    EntryTexts();
    HeldTexts();
    EntryCall();
    QuietTwo("if longCondition", " and strategy.position_size == 0");
    QuietClosed("if strategy.position_size > 0");
    CallShows("    strategy.entry", "", "Long", ", strategy.long)");
    ThreeClosed("if longCondition" + " and strategy.position_size == 0",
                Call("    strategy.entry", "") + Shows("Long", ", strategy.long)"), "if strategy.position_size > 0");
  }

  lemma ShareFree(s: string)
    requires Quiet(s) && s != "" && s[0] == ' '
    ensures var r := " /" + s;
            && Free(r, '/', '/') && Free(r, '/', '*') && Free(r, '*', '/')
            && forall c :: c in r ==> c == '/' || c == ' ' || c in s
  {
    var r := " /" + s;
    assert forall i :: 0 <= i < |s| ==> s[i] in s && r[i + 2] == s[i];
  }

  lemma NoCalls(s: string)
    requires '(' !in s
    ensures CallsAllowed(s)
  {
    assert forall i :: 0 <= i < |s| ==> s[i] in s;
  }

  lemma ShareClosed(s: string)
    requires Quiet(s) && s != "" && s[0] == ' '
    ensures Closed(" /" + s)
  {
    ShareFree(s);
    NoCalls(" /" + s);
    StaysOutside(" /" + s);
  }

  lemma HundredthClosed()
    ensures Closed(HUNDREDTH)
  {
    assert Quiet(" 100)");
    ShareClosed(" 100)");
  }

  lemma PriceTexts()
    ensures Quiet("    stopPrice = ") && Quiet("    limitPrice = ") && Quiet(AVERAGE)
  {}

  lemma FactorTexts()
    ensures AllowedName(" * ") && Quiet("1 - stopLossPct") && Quiet("1 + takeProfitPct")
  {}

  lemma PriceClosed(name: string, factor: string, times: string)
    requires Quiet(name) && Quiet(AVERAGE) && AllowedName(times) && Quiet(factor)
    ensures Closed(name + AVERAGE + (Call(times, factor) + HUNDREDTH))
  {
    QuietAppend(name, AVERAGE);
    QuietClosed(name + AVERAGE);
    HundredthClosed();
    CallClosed(times, factor);
    ClosedAppend(Call(times, factor), HUNDREDTH);
    ClosedAppend(name + AVERAGE, Call(times, factor) + HUNDREDTH);
  }

  lemma PriceLinesClosed()
    ensures AllClosed(PRICE_LINES)
  {
    PriceTexts();
    FactorTexts();
    PriceClosed("    stopPrice = ", "1 - stopLossPct", " * ");
    PriceClosed("    limitPrice = ", "1 + takeProfitPct", " * ");
  }

  lemma ExitTexts()
    ensures AllowedName("    strategy.exit") && Quiet("Long exit") && Quiet(", ")
  {}

  lemma StopText()
    ensures Quiet(", stop=stopPrice" + ", limit=limitPrice)")
  {
    assert Quiet(", stop=stopPrice") && Quiet(", limit=limitPrice)");
    QuietAppend(", stop=stopPrice", ", limit=limitPrice)");
  }

  lemma CloseTexts()
    ensures Quiet("") && Quiet("Long") && Quiet("if flatCondition") && AllowedName("    strategy.close") && Quiet(")")
  {}

  lemma ExitLineClosed()
    ensures Closed(Call("    strategy.exit", "") + Shows("Long exit", ", ")
                   + Shows("Long", ", stop=stopPrice" + ", limit=limitPrice)"))
  {
    ExitTexts();
    StopText();
    CloseTexts();
    CallShows("    strategy.exit", "", "Long exit", ", ");
    ShowsClosed("Long", ", stop=stopPrice" + ", limit=limitPrice)");
    ClosedAppend(Call("    strategy.exit", "") + Shows("Long exit", ", "),
                 Shows("Long", ", stop=stopPrice" + ", limit=limitPrice)"));
  }

  lemma ExitLinesClosed()
    ensures AllClosed(EXIT_LINES)
  {
    ExitLineClosed();
    CloseTexts();
    QuietClosed("if flatCondition");
    CallShows("    strategy.close", "", "Long", ")");
    ThreeClosed(Call("    strategy.exit", "") + Shows("Long exit", ", ")
                + Shows("Long", ", stop=stopPrice" + ", limit=limitPrice)"),
                "if flatCondition", Call("    strategy.close", "") + Shows("Long", ")"));
  }

  lemma AppendClosed(ls: seq<string>, ms: seq<string>)
    requires AllClosed(ls) && AllClosed(ms)
    ensures AllClosed(ls + ms)
  {}

  lemma LastLineClosed()
    ensures AllClosed([""])
  {
    QuietClosed("");
  }

  lemma IndicatorClosed()
    ensures AllClosed(INDICATOR_LINES)
  {
    SignalLinesClosed();
    CrossLinesClosed();
    PlotLinesClosed();
    ShapeLinesClosed();
    LastLineClosed();
    AppendClosed(SIGNAL_LINES, CROSS_LINES);
    AppendClosed(SIGNAL_LINES + CROSS_LINES, PLOT_LINES);
    AppendClosed(SIGNAL_LINES + CROSS_LINES + PLOT_LINES, SHAPE_LINES);
    AppendClosed(SIGNAL_LINES + CROSS_LINES + PLOT_LINES + SHAPE_LINES, [""]);
  }

  lemma StrategyClosed()
    ensures AllClosed(STRATEGY_LINES)
  {
    InputLinesClosed();
    SignalLinesClosed();
    ConditionLinesClosed();
    EntryLinesClosed();
    PriceLinesClosed();
    ExitLinesClosed();
    PlotLinesClosed();
    LastLineClosed();
    var trading := INPUT_LINES + SIGNAL_LINES + CONDITION_LINES + ENTRY_LINES;
    AppendClosed(INPUT_LINES, SIGNAL_LINES);
    AppendClosed(INPUT_LINES + SIGNAL_LINES, CONDITION_LINES);
    AppendClosed(INPUT_LINES + SIGNAL_LINES + CONDITION_LINES, ENTRY_LINES);
    AppendClosed(trading, PRICE_LINES);
    AppendClosed(trading + PRICE_LINES, EXIT_LINES);
    AppendClosed(trading + PRICE_LINES + EXIT_LINES, PLOT_LINES);
    AppendClosed(trading + PRICE_LINES + EXIT_LINES + PLOT_LINES, [""]);
  }

  lemma SettingsTexts()
    ensures Quiet(", overlay=true") && Quiet(")") && Quiet(", commission_type=strategy.commission")
  {}

  lemma CommissionTexts()
    ensures Quiet(".percent, commission_value=0.1")
  {}

  lemma SlippageTexts()
    ensures Quiet(", slippage=1, pyramiding=0)")
  {}

  lemma SettingsQuiet(t: ScriptType)
    ensures Quiet(Settings(t))
  {
    SettingsTexts();
    CommissionTexts();
    SlippageTexts();
    QuietAppend(".percent, commission_value=0.1", ", slippage=1, pyramiding=0)");
    QuietAppend(", commission_type=strategy.commission",
                ".percent, commission_value=0.1" + ", slippage=1, pyramiding=0)");
  }

  lemma NoteNames()
    ensures Quiet("\n" + ENTRY_NOTE) && Quiet("\n" + EXIT_NOTE) && Quiet("\n" + RISK_NOTE)
  {}

  lemma NotesClosed(t: ScriptType)
    ensures Closed(Settings(t) + ("\n" + ENTRY_NOTE)) && Closed("\n" + EXIT_NOTE) && Closed("\n" + RISK_NOTE)
  {
    SettingsQuiet(t);
    NoteNames();
    QuietAppend(Settings(t), "\n" + ENTRY_NOTE);
    QuietClosed(Settings(t) + ("\n" + ENTRY_NOTE));
    QuietClosed("\n" + EXIT_NOTE);
    QuietClosed("\n" + RISK_NOTE);
  }

  lemma EndingClosed(t: ScriptType)
    ensures Closed(Ending(t))
  {
    IndicatorClosed();
    StrategyClosed();
    JoinClosed(Body(t));
    QuietClosed("\n");
    ClosedAppend("\n", Join(Body(t), "\n"));
  }

  // The version comment ends before the declaration

  lemma {:induction false} NoBreak(s: string, t: string)
    requires '\n' !in s
    ensures FromBreak(s + ("\n" + t)) == "\n" + t
  {
    if s == "" {
      assert s + ("\n" + t) == "\n" + t;
    } else {
      assert s[0] in s && (s + ("\n" + t))[1..] == s[1..] + ("\n" + t);
      NoBreak(s[1..], t);
    }
  }

  /** Two slashes in front of text that has none. */
  lemma SlashesFree(tail: string)
    requires '/' !in tail && tail != "" && tail[0] != '*'
    ensures Free("//" + tail, '/', '*') && Free("//" + tail, '*', '/') && !Starts(("//" + tail)[1..], '/', '/')
  {
    var s := "//" + tail;
    assert forall i :: 0 <= i < |tail| ==> tail[i] in tail && s[i + 2] == tail[i];
  }

  lemma SlashesEnd(comment: string, rest: string)
    requires '\n' !in comment && '/' !in comment && '/' !in rest
    ensures !EndsInComment("//" + (comment + ("\n" + rest)))
    ensures StripLines("//" + (comment + ("\n" + rest))) == "\n" + rest
  {
    var tail := comment + ("\n" + rest);
    var s := "//" + tail;
    assert '/' !in tail;
    NoSlashFree(tail);
    NoSlashFree("\n" + rest);
    NoLines(tail);
    NoLines("\n" + rest);
    assert "//" + comment + ("\n" + rest) == s;
    NoBreak("//" + comment, rest);
    assert s[2..] == tail && s[0..] == s;
    assert s[1..][0] == '/' && (tail != "" ==> s[1..][1] == tail[0] && tail[0] in tail);
    EndsInCommentTail(s, 2);
  }

  lemma CommentLine(comment: string, rest: string)
    requires Quiet(comment) && comment != "" && '\n' !in comment && Closed("\n" + rest) && '/' !in rest
    ensures var s := "//" + (comment + ("\n" + rest));
            CodePiece(s) && Executable(s) == Scan(Outside, "\n" + rest)
  {
    var s := "//" + (comment + ("\n" + rest));
    SlashesFree(comment + ("\n" + rest));
    SlashesEnd(comment, rest);
    NoBlocks(s);
  }

  lemma OpeningClosed(t: ScriptType)
    ensures Closed("\n" + Opening(t)) && '/' !in Opening(t)
  {
    assert AllowedName("indicator") && AllowedName("strategy") && Quiet("");
    CallClosed(if t.Indicator? then "indicator" else "strategy", "");
    QuietClosed("\n");
    ClosedAppend("\n", Opening(t));
  }

  lemma VersionText()
    ensures Quiet("@version=6") && '\n' !in "@version=6"
  {}

  lemma Slashed(comment: string, rest: string)
    ensures "//" + comment + "\n" + rest == "//" + (comment + ("\n" + rest))
  {}

  lemma FrontIsCode(t: ScriptType)
    ensures CodePiece(Front(t)) && Executable(Front(t)) == Scan(Outside, "\n" + Opening(t))
  {
    VersionText();
    OpeningClosed(t);
    CommentLine("@version=6", Opening(t));
    Slashed("@version=6", Opening(t));
  }

  // Whole scripts

  /** Wording without comment markers. */
  predicate PlainWording(w: Wording) { Plain(w.title) && Plain(w.entry) && Plain(w.exit) && Plain(w.risk) }

  lemma FourParts(head: string, p: Part, q: Part, r: Part, s: Part)
    requires CodePiece(head) && Closed(p.code) && Closed(q.code) && Closed(r.code) && Closed(s.code)
    requires Plain(p.value) && Plain(q.value) && Plain(r.value) && Plain(s.value)
    ensures Generated(head, [p] + ([q] + ([r] + ([s] + []))))
    ensures forall part :: part in [p] + ([q] + ([r] + ([s] + []))) ==> Closed(part.code)
  {
    ClosedIsCode(p.code);
    ClosedIsCode(q.code);
    ClosedIsCode(r.code);
    ClosedIsCode(s.code);
  }

  /** Every script is a generated program in the sense of the scanner's theorems, and its code calls nothing blocked. */
  lemma GeneratedScript(t: ScriptType, w: Wording)
    requires PlainWording(w)
    ensures Generated(Front(t), Parts(t, w)) && GeneratePine(t, w) == Rendered(Front(t), Parts(t, w))
    ensures forall part :: part in Parts(t, w) ==> Closed(part.code)
  {
    GeneratedText(t, w);
    FrontIsCode(t);
    NotesClosed(t);
    EndingClosed(t);
    FourParts(Front(t), Part(w.title, Settings(t) + ("\n" + ENTRY_NOTE)), Part(w.entry, "\n" + EXIT_NOTE),
              Part(w.exit, "\n" + RISK_NOTE), Part(w.risk, Ending(t)));
  }

  /** The executable text of the script: its fixed code around one blanked literal for the title and each note. */
  lemma ScriptShape(t: ScriptType, w: Wording)
    requires PlainWording(w)
    ensures Executable(GeneratePine(t, w)) == Shape(Front(t), Parts(t, w))
  {
    GeneratedScript(t, w);
    ProgramShape(Front(t), Parts(t, w));
  }

  lemma {:induction false} ShapeAllowed(head: string, parts: seq<Part>)
    requires CallsAllowed(Executable(head)) && forall p :: p in parts ==> Closed(p.code)
    ensures CallsAllowed(Shape(head, parts))
    decreases |parts|
  {
    if parts != [] {
      var x := Scan(LITERAL, Escape(parts[0].value));
      assert parts[0] in parts && forall p :: p in parts[1..] ==> p in parts;
      EscapeRoundTrip(parts[0].value);
      UnitsBlanked(Escape(parts[0].value));
      BlankCalls(x);
      ClosedIsCode(parts[0].code);
      ShapeAllowed(parts[0].code, parts[1..]);
      CallsAppend(Executable(head), Quoted(x));
      CallsAppend(Executable(head) + Quoted(x), Shape(parts[0].code, parts[1..]));
    }
  }

  lemma BlockedEnds(name: string)
    requires name in BLOCKED
    ensures |name| >= 2 && BlockedEnd(name[|name| - 2], name[|name| - 1]) && name[|name| - 1] in "tndy"
    ensures Lower(name) == name
  {}

  /** A blocked call ends in a parenthesis behind the end of its name, or behind blanks. */
  lemma MatchEnds(name: string, w: string)
    requires name in BLOCKED && |w| > |name| && Lower(w[..|name|]) == name && w[|w| - 1] == '('
    requires forall k :: |name| <= k < |w| - 1 ==> IsSpace(w[k])
    ensures |w| >= 3 && BlockedEnd(w[|w| - 3], w[|w| - 2])
  {
    BlockedEnds(name);
    var n := |name|;
    assert LowerChar(w[n - 1]) == Lower(w[..n])[n - 1];
    assert LowerChar(w[n - 2]) == Lower(w[..n])[n - 2];
  }

  lemma NotCalled(name: string, text: string)
    requires name in BLOCKED && CallsAllowed(text)
    ensures !Found(CallOf(name), text)
  {
    forall i: nat, j: nat | i <= j <= |text| ensures !FoundAt(CallOf(name), text, i, j) {
      if FoundAt(CallOf(name), text, i, j) {
        MatchEnds(name, text[i..j]);
        LastThree(text, i, j);
        assert false;
      }
    }
  }

  lemma LastThree(text: string, i: nat, j: nat)
    requires i + 3 <= j <= |text|
    ensures var w := text[i..j]; text[j - 1] == w[|w| - 1] && text[j - 2] == w[|w| - 2] && text[j - 3] == w[|w| - 3]
  {}

  /**
   * Whatever its wording says, also when it names a blocked call: a script passes the check for blocked constructs,
   * as long as the wording has no comment markers.
   */
  lemma ScriptPasses(t: ScriptType, w: Wording)
    requires PlainWording(w)
    ensures NothingBlocked(GeneratePine(t, w))
  {
    ScriptShape(t, w);
    GeneratedScript(t, w);
    FrontIsCode(t);
    OpeningClosed(t);
    ShapeAllowed(Front(t), Parts(t, w));
    forall name | name in BLOCKED ensures !Found(CallOf(name), Executable(GeneratePine(t, w))) {
      NotCalled(name, Executable(GeneratePine(t, w)));
    }
  }
}
