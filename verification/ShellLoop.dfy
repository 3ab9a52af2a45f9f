/** The interactive loop: lines are appended to a buffer until the buffer holds complete statements.

    The lexer is a parameter. What is asked of it is that a buffer the shell has accepted as complete,
    ending in a newline, is lexed the same way whatever text follows it.
 */
module ShellLoop {
  import opened Common
  import opened StatementSplitter

  type Lexer = string -> Option<seq<Token>>

  /** Rules of the loop that do not change: the lexer and the commands that end at a newline. */
  datatype Rules = Rules(lex: Lexer, commands: set<string>)

  function Trim(stmts: seq<Statement>): (out: seq<Statement>)
    ensures out != [] ==> out[|out| - 1] != []
  {
    if stmts != [] && stmts[|stmts| - 1] == [] then Trim(stmts[..|stmts| - 1]) else stmts
  }

  /** onecmd: the text does not lex, or more input is needed, or these statements are executed. */
  datatype Verdict = LexError | Incomplete | Execute(stmts: seq<Statement>)

  function Judge(ts: seq<Token>, commands: set<string>): Verdict {
    var stmts := Trim(Statements(ts, commands));
    if stmts == [] then Execute([])
    else if Escaped(ts, commands) || stmts[|stmts| - 1][|stmts[|stmts| - 1]| - 1].kind != Endtoken then Incomplete
    else Execute(stmts)
  }

  function OneCmd(rules: Rules, text: string): Verdict {
    match rules.lex(text)
    case None => LexError
    case Some(ts) => Judge(ts, rules.commands)
  }

  datatype Shell = Shell(pending: string, executed: seq<Statement>, errors: nat, stopped: bool)

  datatype Event = Line(text: string) | Interrupt | EndOfFile

  function Blank(s: string): bool {
    forall i :: 0 <= i < |s| ==> IsSpace(s[i])
  }

  function Step(rules: Rules, s: Shell, e: Event): Shell {
    if s.stopped then s
    else
      match e
      case Line(text) =>
        (match OneCmd(rules, s.pending + text)
         case LexError => s.(pending := "", errors := s.errors + 1)
         case Incomplete => s.(pending := s.pending + text)
         case Execute(stmts) => s.(pending := "", executed := s.executed + stmts))
      case Interrupt => s.(pending := "")
      case EndOfFile =>
        if Blank(s.pending) then s.(stopped := true)
        else
          (match OneCmd(rules, s.pending)
           case LexError => s.(errors := s.errors + 1, stopped := true)
           case Incomplete => s.(errors := s.errors + 1, stopped := true)
           case Execute(stmts) => s.(executed := s.executed + stmts, stopped := true))
  }

  function Run(rules: Rules, s: Shell, events: seq<Event>): Shell
    decreases |events|
  {
    if events == [] then s else Run(rules, Step(rules, s, events[0]), events[1..])
  }

  /** Only lines. */
  function Feed(rules: Rules, s: Shell, lines: seq<string>): Shell
    decreases |lines|
  {
    if lines == [] then s else Feed(rules, Step(rules, s, Line(lines[0])), lines[1..])
  }

  // ---- what completeness means ----

  lemma {:induction false} TrimShape(stmts: seq<Statement>)
    ensures Trim(stmts) <= stmts
    ensures forall k :: |Trim(stmts)| <= k < |stmts| ==> stmts[k] == []
    ensures Trim(stmts) != [] ==> Trim(stmts)[|Trim(stmts)| - 1] != []
    decreases |stmts|
  {
    if stmts != [] && stmts[|stmts| - 1] == [] {
      TrimShape(stmts[..|stmts| - 1]);
    }
  }

  lemma {:induction false} FlattenEmpties(stmts: seq<Statement>)
    requires forall k :: 0 <= k < |stmts| ==> stmts[k] == []
    ensures Flatten(stmts) == []
  {
    if stmts != [] {
      FlattenEmpties(stmts[1..]);
    }
  }

  lemma TrimFlatten(stmts: seq<Statement>)
    ensures Flatten(stmts) == Flatten(Trim(stmts))
  {
    TrimShape(stmts);
    var n := |Trim(stmts)|;
    assert stmts == Trim(stmts) + stmts[n..];
    FlattenJoin(Trim(stmts), stmts[n..]);
    FlattenEmpties(stmts[n..]);
  }

  /** The last token of the trimmed statements is the last token that survived massaging. */
  lemma LastToken(ts: seq<Token>, commands: set<string>)
    ensures var stmts, m := Trim(Statements(ts, commands)), Massage(ts, START, commands);
      && (stmts == [] <==> m == [])
      && (stmts != [] ==> stmts[|stmts| - 1] != [] && stmts[|stmts| - 1][|stmts[|stmts| - 1]| - 1] == m[|m| - 1])
  {
    var stmts := Trim(Statements(ts, commands));
    StatementsKeepTokens(ts, commands);
    TrimFlatten(Statements(ts, commands));
    TrimShape(Statements(ts, commands));
    if stmts != [] {
      var n := |stmts| - 1;
      assert stmts == stmts[..n] + [stmts[n]];
      FlattenJoin(stmts[..n], [stmts[n]]);
      assert Flatten([stmts[n]]) == stmts[n] + Flatten([]) == stmts[n];
    }
  }

  lemma NothingEscaped(ts: seq<Token>, commands: set<string>)
    requires Massage(ts, START, commands) == []
    ensures !Escaped(ts, commands)
  {
    var none := Grouping([], false);
    assert Group(none, [[]]) == Group(AddPiece(none, []), []) == AddPiece(none, []);
  }

  /** Tokens judged complete leave nothing open, and all their statements are executed. */
  lemma JudgedComplete(a: seq<Token>, commands: set<string>)
    requires Judge(a, commands).Execute?
    ensures var m := Massage(a, START, commands); m == [] || m[|m| - 1].kind == Endtoken
    ensures !Escaped(a, commands)
    ensures var out := Statements(a, commands); out != [] && out[..|out| - 1] == Judge(a, commands).stmts
  {
    NothingOpen(a, commands);
    CompletePieces(a, commands);
    TrimOne(Statements(a, commands));
  }

  lemma NothingOpen(a: seq<Token>, commands: set<string>)
    requires Judge(a, commands).Execute?
    ensures var m := Massage(a, START, commands); m == [] || m[|m| - 1].kind == Endtoken
    ensures !Escaped(a, commands) && Judge(a, commands).stmts == Trim(Statements(a, commands))
  {
    LastToken(a, commands);
    if Massage(a, START, commands) == [] {
      NothingEscaped(a, commands);
    }
  }

  lemma TrimOne(out: seq<Statement>)
    requires out != [] && out[|out| - 1] == [] && forall k :: 0 <= k < |out| - 1 ==> out[k] != []
    ensures Trim(out) == out[..|out| - 1]
  {
    TrimShape(out);
  }

  /** Nothing is left open: no tokens at all, or an end token last and neither a batch nor a string
      still open. */
  ghost predicate NothingLeft(ts: seq<Token>, commands: set<string>) {
    var m := Massage(ts, START, commands);
    m == [] || (m[|m| - 1].kind == Endtoken && !BatchOpen(SplitList(m, IsEnd)) && !OneUnclosed(m))
  }

  /** Text is executed exactly when nothing is left open, and then all its statements are; otherwise
      the shell waits for more. */
  lemma JudgeExact(ts: seq<Token>, commands: set<string>)
    ensures
      if NothingLeft(ts, commands) then
        var out := Statements(ts, commands);
        out != [] && Judge(ts, commands) == Execute(out[..|out| - 1])
      else Judge(ts, commands) == Incomplete
  {
    LastToken(ts, commands);
    EscapedExact(ts, commands);
    if Judge(ts, commands).Execute? { JudgedComplete(ts, commands); }
  }

  /** They contribute these statements, and nothing else, to any continuation. */
  lemma CompleteJoins(a: seq<Token>, b: seq<Token>, commands: set<string>)
    requires Judge(a, commands).Execute?
    ensures Statements(a + b, commands) == Judge(a, commands).stmts + Statements(b, commands)
  {
    JudgedComplete(a, commands);
    StatementsJoin(a, b, commands);
  }

  // ---- cutting the input into lines does not matter ----

  predicate EndsLine(s: string) {
    s != "" && s[|s| - 1] == '\n'
  }

  /** After a complete buffer `a` the lexer starts afresh on `b`. */
  ghost predicate StartsAfresh(rules: Rules, a: string, b: string) {
    EndsLine(a) && OneCmd(rules, a).Execute? ==>
      rules.lex(a + b) == match rules.lex(b) case None => None case Some(ts) => Some(rules.lex(a).value + ts)
  }

  ghost predicate Compositional(rules: Rules) {
    rules.lex("") == Some([]) && forall a, b :: StartsAfresh(rules, a, b)
  }

  /** Every line but the last ends with a newline. */
  ghost predicate WholeLines(lines: seq<string>) {
    forall i :: 0 <= i < |lines| - 1 ==> EndsLine(lines[i])
  }

  /** The statements of a text that lexes. */
  function StatementsOf(rules: Rules, text: string): Option<seq<Statement>> {
    match rules.lex(text)
    case None => None
    case Some(ts) => Some(Statements(ts, rules.commands))
  }

  /** Every buffer accumulated from the lines lexes. */
  ghost predicate BuffersLex(rules: Rules, pending: string, lines: seq<string>)
    decreases |lines|
  {
    lines == [] ||
    var buf := pending + lines[0];
    rules.lex(buf).Some? && BuffersLex(rules, if OneCmd(rules, buf).Incomplete? then buf else "", lines[1..])
  }

  /** `prefix` executed, then `rest` still to be split, makes up the split of `text`. */
  ghost predicate Continues(rules: Rules, before: seq<Statement>, text: string, after: seq<Statement>, rest: string) {
    && StatementsOf(rules, text).Some? && StatementsOf(rules, rest).Some?
    && after + StatementsOf(rules, rest).value == before + StatementsOf(rules, text).value
  }

  /** A complete buffer followed by more text. */
  lemma ExecuteJoins(rules: Rules, a: string, b: string)
    requires Compositional(rules) && OneCmd(rules, a).Execute? && (EndsLine(a) || b == "")
    requires StatementsOf(rules, b).Some?
    ensures StatementsOf(rules, a + b) == Some(OneCmd(rules, a).stmts + StatementsOf(rules, b).value)
  {
    if b == "" {
      assert a + b == a;
      assert rules.lex(a).value + [] == rules.lex(a).value;
    }
    assert StartsAfresh(rules, a, b);
    CompleteJoins(rules.lex(a).value, rules.lex(b).value, rules.commands);
  }

  /** One line, then the rest of the input. */
  lemma LineContinues(rules: Rules, s: Shell, line: string, rest: string, after: seq<Statement>, left: string)
    requires Compositional(rules) && !s.stopped && (EndsLine(line) || rest == "")
    requires !OneCmd(rules, s.pending + line).LexError?
    requires var s1 := Step(rules, s, Line(line)); Continues(rules, s1.executed, s1.pending + rest, after, left)
    ensures Continues(rules, s.executed, s.pending + line + rest, after, left)
  {
    var buf := s.pending + line;
    if OneCmd(rules, buf).Execute? {
      assert "" + rest == rest;
      assert EndsLine(line) ==> buf[|buf| - 1] == '\n';
      ExecuteJoins(rules, buf, rest);
      Regroup(s.executed, OneCmd(rules, buf).stmts, StatementsOf(rules, rest).value);
    }
  }

  lemma StepLexes(rules: Rules, s: Shell, lines: seq<string>)
    requires rules.lex("").Some? && !s.stopped && lines != [] && BuffersLex(rules, s.pending, lines)
    ensures var s1 := Step(rules, s, Line(lines[0]));
      && !s1.stopped && rules.lex(s1.pending).Some? && BuffersLex(rules, s1.pending, lines[1..])
      && !OneCmd(rules, s.pending + lines[0]).LexError?
  {
  }

  lemma LinesTail(lines: seq<string>, text: string)
    requires lines != [] && WholeLines(lines)
    ensures WholeLines(lines[1..]) && (EndsLine(lines[0]) || Flatten(lines[1..]) == "")
    ensures text + Flatten(lines) == text + lines[0] + Flatten(lines[1..])
  {
  }

  /** For every division of the input into lines: what has been executed, followed by the split of the
      pending buffer, is the split of the whole input. */
  lemma {:induction false} ChunkingIrrelevant(rules: Rules, s: Shell, lines: seq<string>)
    requires Compositional(rules) && WholeLines(lines) && !s.stopped
    requires rules.lex(s.pending).Some? && BuffersLex(rules, s.pending, lines)
    ensures var e := Feed(rules, s, lines);
      Continues(rules, s.executed, s.pending + Flatten(lines), e.executed, e.pending)
    decreases |lines|
  {
    if lines == [] {
      assert s.pending + "" == s.pending;
    } else {
      var line, rest := lines[0], lines[1..];
      var s1 := Step(rules, s, Line(line));
      StepLexes(rules, s, lines);
      LinesTail(lines, s.pending);
      ChunkingIrrelevant(rules, s1, rest);
      var e := Feed(rules, s1, rest);
      LineContinues(rules, s, line, Flatten(rest), e.executed, e.pending);
    }
  }

  /** Two divisions of the same input agree, up to what still waits in the buffers; when nothing
      waits in either, exactly the same statements have been executed. */
  lemma DivisionsAgree(rules: Rules, s: Shell, lines: seq<string>, lines': seq<string>)
    requires Compositional(rules) && WholeLines(lines) && WholeLines(lines') && !s.stopped && s.pending == ""
    requires Flatten(lines) == Flatten(lines')
    requires BuffersLex(rules, "", lines) && BuffersLex(rules, "", lines')
    ensures var e, e' := Feed(rules, s, lines), Feed(rules, s, lines');
      && StatementsOf(rules, e.pending).Some? && StatementsOf(rules, e'.pending).Some?
      && e.executed + StatementsOf(rules, e.pending).value == e'.executed + StatementsOf(rules, e'.pending).value
      && (e.pending == e'.pending ==> e.executed == e'.executed)
  {
    ChunkingIrrelevant(rules, s, lines);
    ChunkingIrrelevant(rules, s, lines');
    var e, e' := Feed(rules, s, lines), Feed(rules, s, lines');
    if e.pending == e'.pending {
      var y := StatementsOf(rules, e.pending).value;
      assert |e.executed| == |e'.executed|;
      assert (e.executed + y)[..|e.executed|] == e.executed;
      assert (e'.executed + y)[..|e'.executed|] == e'.executed;
    }
  }

  /** No error is reported exactly when every buffer lexes. */
  lemma {:induction false} ErrorsExact(rules: Rules, s: Shell, lines: seq<string>)
    requires !s.stopped
    ensures Feed(rules, s, lines).errors >= s.errors
    ensures Feed(rules, s, lines).errors == s.errors <==> BuffersLex(rules, s.pending, lines)
    decreases |lines|
  {
    if lines != [] {
      ErrorsExact(rules, Step(rules, s, Line(lines[0])), lines[1..]);
    }
  }

  // ---- a lexer that meets the hypothesis ----

  function CharToken(c: char): Token {
    Token(if c == ';' then Endtoken else if c == '\n' then Endline else Other("word"), [c])
  }

  /** The lexer that makes a token of every character. */
  function CharTokens(text: string): seq<Token> {
    if text == "" then [] else [CharToken(text[0])] + CharTokens(text[1..])
  }

  lemma {:induction false} CharTokensJoin(a: string, b: string)
    ensures CharTokens(a + b) == CharTokens(a) + CharTokens(b)
  {
    if a == "" {
      assert a + b == b;
    } else {
      assert (a + b)[1..] == a[1..] + b;
      CharTokensJoin(a[1..], b);
    }
  }

  lemma CharLexerCompositional(commands: set<string>)
    ensures Compositional(Rules(text => Some(CharTokens(text)), commands))
  {
    var rules := Rules(text => Some(CharTokens(text)), commands);
    forall a, b
      ensures StartsAfresh(rules, a, b)
    {
      CharTokensJoin(a, b);
    }
  }

  // ---- the buffer over whole sessions ----

  /** The buffer is empty or holds an incomplete text. */
  ghost predicate Waiting(rules: Rules, s: Shell) {
    s.pending == "" || OneCmd(rules, s.pending) == Incomplete
  }

  lemma {:induction false} SessionWaits(rules: Rules, s: Shell, events: seq<Event>)
    requires Waiting(rules, s)
    ensures Waiting(rules, Run(rules, s, events))
    decreases |events|
  {
    if events != [] {
      SessionWaits(rules, Step(rules, s, events[0]), events[1..]);
    }
  }

  /** An interrupt forgets what was typed so far, and nothing else. */
  lemma InterruptForgets(rules: Rules, s: Shell, t: Shell, events: seq<Event>)
    requires !s.stopped && t == s.(pending := t.pending)
    ensures Step(rules, s, Interrupt).executed == s.executed && Step(rules, s, Interrupt).errors == s.errors
    ensures Run(rules, s, [Interrupt] + events) == Run(rules, t, [Interrupt] + events)
    ensures Run(rules, s, [Interrupt] + events) == Run(rules, s.(pending := ""), events)
  {
    assert ([Interrupt] + events)[1..] == events;
  }

  /** At the end of the file nothing more is executed, and an unfinished statement is an error. */
  lemma EndOfFileExecutesNothing(rules: Rules, s: Shell, events: seq<Event>)
    requires Waiting(rules, s)
    ensures var e := Run(rules, s, events);
      !e.stopped ==>
        Step(rules, e, EndOfFile) == e.(stopped := true, errors := if IsPad(e.pending) then e.errors else e.errors + 1)
  {
    SessionWaits(rules, s, events);
    var text := Run(rules, s, events).pending;
    forall i | 0 <= i < |text|
      ensures IsSpace(text[i]) <==> text[i] as int == 32 || 9 <= text[i] as int <= 13
    {
      SpaceIs(text[i]);
    }
  }

  // ---- the loop itself ----

  method TrimLoop(stmts: seq<Statement>) returns (out: seq<Statement>)
    ensures out == Trim(stmts)
  {
    out := stmts;
    while out != [] && out[|out| - 1] == []
      invariant Trim(out) == Trim(stmts)
      decreases |out|
    {
      out := out[..|out| - 1];
    }
  }

  class ShellObject {
    const rules: Rules
    var statement: string
    var executed: seq<Statement>
    var errors: nat
    var stop: bool

    function View(): Shell
      reads this
    {
      Shell(statement, executed, errors, stop)
    }

    constructor (rules: Rules)
      ensures this.rules == rules && View() == Shell("", [], 0, false)
    {
      this.rules := rules;
      statement, executed, errors, stop := "", [], 0, false;
    }

    method HandleAll(statements: seq<Statement>)
      modifies this`executed
      ensures executed == old(executed) + statements
    {
      for i := 0 to |statements|
        invariant executed == old(executed) + statements[..i]
      {
        executed := executed + [statements[i]];
      }
    }

    /** Returns whether the text was complete and has been handled. */
    method DoOneCmd(text: string) returns (handled: bool)
      modifies this`executed, this`errors
      ensures handled == !OneCmd(rules, text).Incomplete?
      ensures executed == old(executed) + (if OneCmd(rules, text).Execute? then OneCmd(rules, text).stmts else [])
      ensures errors == old(errors) + (if OneCmd(rules, text).LexError? then 1 else 0)
    {
      var lexed := rules.lex(text);
      if lexed.None? {
        errors := errors + 1;
        return true;
      }
      var statements, escaped := SplitStatements(lexed.value, rules.commands);
      ghost var all := statements;
      statements := TrimLoop(statements);
      TrimShape(all);
      if statements == [] {
        return true;
      }
      var last := statements[|statements| - 1];
      if escaped || last[|last| - 1].kind != Endtoken {
        return false;
      }
      HandleAll(statements);
      return true;
    }

    method ReadLine(line: string)
      requires !stop
      modifies this
      ensures View() == Step(rules, old(View()), Line(line))
    {
      statement := statement + line;
      var handled := DoOneCmd(statement);
      if handled {
        statement := "";
      }
    }

    /** cmdloop over the lines of an input, then the end of the file. */
    method CmdLoop(lines: seq<string>)
      requires !stop
      modifies this
      ensures View() == Step(rules, Feed(rules, old(View()), lines), EndOfFile)
    {
      for i := 0 to |lines|
        invariant !stop
        invariant Feed(rules, View(), lines[i..]) == Feed(rules, old(View()), lines)
      {
        assert lines[i..][0] == lines[i] && lines[i..][1..] == lines[i + 1..];
        ReadLine(lines[i]);
      }
      if !Blank(statement) {
        var handled := DoOneCmd(statement);
        if !handled {
          errors := errors + 1;
        }
      }
      stop := true;
    }
  }
}
