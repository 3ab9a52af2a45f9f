/** The compiler from rule text, already cut into rule tokens, to matchers, and the printer it undoes. */
module RuleCompiler {
  import opened Common
  import opened Pylexotron

  datatype RuleToken =
    | Reference(name: string)
    | Junk(name: string)
    | LitString(lit: string)
    | RegexLit(pattern: string)
    | CollectorName(name: string)
    | SymbolName(name: string)
    | Open | Close | Bar | Question | Star | At | Semi | Assign

  /** What ends a call of read_rule_tokens_until: a closing token, or having read one item. */
  datatype Ending = Until(closer: RuleToken) | OneItem

  datatype ReadResult = Parsed(rule: Matcher, rest: seq<RuleToken>) | Malformed

  function MkRule(pieces: seq<Matcher>): Matcher {
    if |pieces| == 1 then pieces[0] else Series(pieces)
  }

  function MkRules(branches: seq<seq<Matcher>>): (r: seq<Matcher>)
    ensures |r| == |branches|
    ensures forall i :: 0 <= i < |r| ==> r[i] == MkRule(branches[i])
  {
    seq(|branches|, i requires 0 <= i < |branches| => MkRule(branches[i]))
  }

  function Assemble(branches: seq<seq<Matcher>>): Matcher
    requires branches != []
  {
    if |branches| == 1 then MkRule(branches[0]) else Choice(MkRules(branches))
  }

  /** The loop of read_rule_tokens_until: `done` holds the finished branches, `cur` the pieces of
      the current one, and `first` says that no token has been counted yet. */
  function Read(end: Ending, toks: seq<RuleToken>, done: seq<seq<Matcher>>, cur: seq<Matcher>,
      first: bool): (r: ReadResult)
    ensures r.Parsed? ==> |r.rest| < |toks|
    decreases |toks|, 0
  {
    if toks == [] then Malformed else ReadToken(end, toks[0], toks[1..], done, cur, first)
  }

  /** One round of the loop, on the token `t`. */
  function ReadToken(
    end: Ending, t: RuleToken, rest: seq<RuleToken>, done: seq<seq<Matcher>>, cur: seq<Matcher>,
        first: bool): (r: ReadResult)
    ensures r.Parsed? ==> |r.rest| <= |rest|
    decreases |rest|, 2
  {
    if end == Until(t) then Parsed(Assemble(done + [cur]), rest)
    else
      match t
      case Reference(name) => Push(end, rest, done, cur + [Ref(name)], first)
      case LitString(lit) => Push(end, rest, done, cur + [Leaf(Text(lit))], first)
      case RegexLit(pattern) => Push(end, rest, done, cur + [Leaf(Regex(pattern))], first)
      case CollectorName(name) =>
        var inner := Read(OneItem, rest, [], [], true);
        if inner.Malformed? then Malformed
        else Push(end, inner.rest, done, cur + [NamedCollector(name, inner.rule)], first)
      case SymbolName(name) =>
        var inner := Read(OneItem, rest, [], [], true);
        if inner.Malformed? then Malformed
        else Push(end, inner.rest, done, cur + [NamedSymbol(name, inner.rule)], first)
      case Open =>
        var inner := Read(Until(Close), rest, [], [], true);
        if inner.Malformed? then Malformed else Push(end, inner.rest, done, cur + [inner.rule], first)
      case Question =>
        if cur == [] then Malformed
        else Push(end, rest, done, cur[..|cur| - 1] + [OneOrNone(cur[|cur| - 1])], first)
      case Star =>
        if cur == [] then Malformed
        else Push(end, rest, done, cur[..|cur| - 1] + [Repeat(cur[|cur| - 1])], first)
      case At =>
        if rest == [] || !rest[0].LitString? then Malformed
        else Push(end, rest[1..], done, cur + [Leaf(CaseText(rest[0].lit))], first)
      case Bar => Read(end, rest, done + [cur], [], false)
      case _ => Malformed
  }

  /** The end of one round: stop after a first item if only one was asked for, else go on. */
  function Push(end: Ending, rest: seq<RuleToken>, done: seq<seq<Matcher>>, cur: seq<Matcher>,
      first: bool): (r: ReadResult)
    ensures r.Parsed? ==> |r.rest| <= |rest|
    decreases |rest|, 1
  {
    if end.OneItem? && first then Parsed(Assemble(done + [cur]), rest) else Read(end, rest, done, cur, false)
  }

  /** The loop itself, on a token cursor and a stack of pieces, computes Read. */
  method ReadRuleTokensUntil(end: Ending, toks: seq<RuleToken>) returns (r: ReadResult)
    ensures r == Read(end, toks, [], [], true)
    decreases |toks|
  {
    var rest, done: seq<seq<Matcher>>, cur: seq<Matcher>, first := toks, [], [], true;
    while rest != []
      invariant |rest| <= |toks|
      invariant Read(end, toks, [], [], true) == Read(end, rest, done, cur, first)
      decreases |rest|
    {
      var t := rest[0];
      rest := rest[1..];
      assert Read(end, toks, [], [], true) == ReadToken(end, t, rest, done, cur, first);
      if end == Until(t) { return Parsed(Assemble(done + [cur]), rest); }
      match t {
        case Reference(name) => cur := cur + [Ref(name)];
        case LitString(lit) => cur := cur + [Leaf(Text(lit))];
        case RegexLit(pattern) => cur := cur + [Leaf(Regex(pattern))];
        case CollectorName(name) =>
          var inner := ReadRuleTokensUntil(OneItem, rest);
          if inner.Malformed? { return Malformed; }
          rest, cur := inner.rest, cur + [NamedCollector(name, inner.rule)];
        case SymbolName(name) =>
          var inner := ReadRuleTokensUntil(OneItem, rest);
          if inner.Malformed? { return Malformed; }
          rest, cur := inner.rest, cur + [NamedSymbol(name, inner.rule)];
        case Open =>
          var inner := ReadRuleTokensUntil(Until(Close), rest);
          if inner.Malformed? { return Malformed; }
          rest, cur := inner.rest, cur + [inner.rule];
        case Question =>
          if cur == [] { return Malformed; }
          cur := cur[..|cur| - 1] + [OneOrNone(cur[|cur| - 1])];
        case Star =>
          if cur == [] { return Malformed; }
          cur := cur[..|cur| - 1] + [Repeat(cur[|cur| - 1])];
        case At =>
          if rest == [] || !rest[0].LitString? { return Malformed; }
          rest, cur := rest[1..], cur + [Leaf(CaseText(rest[0].lit))];
        case Bar =>
          done, cur, first := done + [cur], [], false;
          continue;
        case _ => return Malformed;
      }
      assert Read(end, toks, [], [], true) == Push(end, rest, done, cur, first);
      if end.OneItem? && first { return Parsed(Assemble(done + [cur]), rest); }
      first := false;
    }
    return Malformed;
  }

  // ---- the printer ----

  /** The trees the compiler can build: no series of one piece, no choice of fewer than two branches. */
  predicate Normal(m: Matcher)
    decreases m
  {
    match m
    case Leaf(_) => true
    case TypeOf(_, _) => false
    case Choice(branches) => |branches| >= 2 && forall i :: 0 <= i < |branches| ==> Normal(branches[i])
    case OneOrNone(arg) => Normal(arg)
    case Repeat(arg) => Normal(arg)
    case Ref(_) => true
    case Series(pieces) => |pieces| != 1 && forall i :: 0 <= i < |pieces| ==> Normal(pieces[i])
    case NamedSymbol(_, arg) => Normal(arg)
    case NamedCollector(_, arg) => Normal(arg)
  }

  function Parens(toks: seq<RuleToken>): seq<RuleToken> {
    [Open] + toks + [Close]
  }

  /** Prints `m` as one piece of a series. */
  function PrintUnit(m: Matcher): seq<RuleToken>
    decreases m, 1
  {
    match m
    case Leaf(Text(lit)) => [LitString(lit)]
    case Leaf(CaseText(lit)) => [At, LitString(lit)]
    case Leaf(Regex(pattern)) => [RegexLit(pattern)]
    case TypeOf(_, _) => []
    case Choice(branches) => Parens(PrintBranches(branches))
    case OneOrNone(arg) => PrintUnit(arg) + [Question]
    case Repeat(arg) => PrintUnit(arg) + [Star]
    case Ref(name) => [Reference(name)]
    case Series(pieces) => Parens(PrintUnits(pieces))
    case NamedSymbol(name, arg) => [SymbolName(name)] + PrintItem(arg)
    case NamedCollector(name, arg) => [CollectorName(name)] + PrintItem(arg)
  }

  /** Prints `m` so that it is read as a single item: a postfix would bind to the whole named symbol. */
  function PrintItem(m: Matcher): seq<RuleToken>
    decreases m, 2
  {
    if m.OneOrNone? || m.Repeat? then Parens(PrintUnit(m)) else PrintUnit(m)
  }

  function PrintUnits(ms: seq<Matcher>): seq<RuleToken>
    decreases ms, 0
  {
    if ms == [] then [] else PrintUnit(ms[0]) + PrintUnits(ms[1..])
  }

  /** Prints `m` as a branch, where a series needs no parentheses. */
  function PrintBranch(m: Matcher): seq<RuleToken>
    decreases m, 2
  {
    if m.Series? then PrintUnits(m.pieces) else PrintUnit(m)
  }

  function PrintBranches(ms: seq<Matcher>): seq<RuleToken>
    decreases ms, 0
  {
    if ms == [] then [] else if |ms| == 1 then PrintBranch(ms[0])
        else PrintBranch(ms[0]) + [Bar] + PrintBranches(ms[1..])
  }

  /** Prints `m` as the body of a rule or of a pair of parentheses. */
  function PrintBody(m: Matcher): seq<RuleToken> {
    if m.Choice? then PrintBranches(m.branches) else PrintBranch(m)
  }

  function Pieces(m: Matcher): seq<Matcher> {
    if m.Series? then m.pieces else [m]
  }

  // ---- reading undoes printing ----

  lemma ReadHead(end: Ending, t: RuleToken, rest: seq<RuleToken>, toks: seq<RuleToken>, done: seq<seq<Matcher>>,
      cur: seq<Matcher>, first: bool)
    requires toks == [t] + rest
    ensures Read(end, toks, done, cur, first) == ReadToken(end, t, rest, done, cur, first)
  {
    assert toks[1..] == rest;
  }

  predicate IsCloser(t: RuleToken) {
    t == Close || t == Semi
  }

  /** Reading a printed unit pushes the unit, before any closing token. */
  lemma {:induction false} UnitRead(m: Matcher, closer: RuleToken, rest: seq<RuleToken>, done: seq<seq<Matcher>>,
      cur: seq<Matcher>, first: bool)
    requires Normal(m) && IsCloser(closer)
    ensures Read(Until(closer), PrintUnit(m) + rest, done, cur, first) ==
        Read(Until(closer), rest, done, cur + [m], false)
    decreases m, 2
  {
    if m.OneOrNone? {
      UnitRead(m.arg, closer, [Question] + rest, done, cur, first);
      PostfixRead(m.arg, Question, m, closer, rest, done, cur);
      Regroup(PrintUnit(m.arg), [Question], rest);
    } else if m.Repeat? {
      UnitRead(m.arg, closer, [Star] + rest, done, cur, first);
      PostfixRead(m.arg, Star, m, closer, rest, done, cur);
      Regroup(PrintUnit(m.arg), [Star], rest);
    } else {
      PlainRead(m, Until(closer), rest, done, cur, first);
    }
  }

  lemma PostfixRead(arg: Matcher, t: RuleToken, m: Matcher, closer: RuleToken, rest: seq<RuleToken>,
      done: seq<seq<Matcher>>, cur: seq<Matcher>)
    requires (t == Question && m == OneOrNone(arg)) || (t == Star && m == Repeat(arg))
    requires IsCloser(closer)
    ensures Read(Until(closer), [t] + rest, done, cur + [arg], false) ==
        Read(Until(closer), rest, done, cur + [m], false)
  {
    ReadHead(Until(closer), t, rest, [t] + rest, done, cur + [arg], false);
    assert (cur + [arg])[..|cur|] == cur;
  }

  lemma ParensRead(body: seq<RuleToken>, m: Matcher, end: Ending, rest: seq<RuleToken>, done: seq<seq<Matcher>>,
      cur: seq<Matcher>, first: bool)
    requires end.Until? ==> IsCloser(end.closer)
    requires Read(Until(Close), body + [Close] + rest, [], [], true) == Parsed(m, rest)
    ensures Read(end, Parens(body) + rest, done, cur, first) == Push(end, rest, done, cur + [m], first)
  {
    assert Parens(body) + rest == [Open] + (body + [Close] + rest);
    ReadHead(end, Open, body + [Close] + rest, Parens(body) + rest, done, cur, first);
  }

  lemma NamedRead(name: string, arg: Matcher, item: seq<RuleToken>, end: Ending, rest: seq<RuleToken>,
      done: seq<seq<Matcher>>, cur: seq<Matcher>, first: bool)
    requires end.Until? ==> IsCloser(end.closer)
    requires Read(OneItem, item + rest, [], [], true) == Parsed(arg, rest)
    ensures Read(end, [SymbolName(name)] + item + rest, done, cur, first) ==
        Push(end, rest, done, cur + [NamedSymbol(name, arg)], first)
    ensures Read(end, [CollectorName(name)] + item + rest, done, cur, first) ==
        Push(end, rest, done, cur + [NamedCollector(name, arg)], first)
  {
    assert [SymbolName(name)] + item + rest == [SymbolName(name)] + (item + rest);
    assert [CollectorName(name)] + item + rest == [CollectorName(name)] + (item + rest);
    ReadHead(end, SymbolName(name), item + rest, [SymbolName(name)] + item + rest, done, cur, first);
    ReadHead(end, CollectorName(name), item + rest, [CollectorName(name)] + item + rest, done, cur, first);
  }

  lemma LeafRead(t: Terminal, end: Ending, rest: seq<RuleToken>, done: seq<seq<Matcher>>, cur: seq<Matcher>,
      first: bool)
    requires end.Until? ==> IsCloser(end.closer)
    ensures Read(end, PrintUnit(Leaf(t)) + rest, done, cur, first) == Push(end, rest, done, cur + [Leaf(t)], first)
  {
    var toks := PrintUnit(Leaf(t)) + rest;
    match t
    case Text(lit) => ReadHead(end, LitString(lit), rest, toks, done, cur, first);
    case CaseText(lit) =>
      assert toks == [At] + ([LitString(lit)] + rest);
      ReadHead(end, At, [LitString(lit)] + rest, toks, done, cur, first);
      assert ([LitString(lit)] + rest)[1..] == rest;
    case Regex(pattern) => ReadHead(end, RegexLit(pattern), rest, toks, done, cur, first);
  }

  /** A unit without a postfix is read in one round. */
  lemma {:induction false} PlainRead(m: Matcher, end: Ending, rest: seq<RuleToken>, done: seq<seq<Matcher>>,
      cur: seq<Matcher>, first: bool)
    requires Normal(m) && !m.OneOrNone? && !m.Repeat?
    requires end.Until? ==> IsCloser(end.closer)
    ensures Read(end, PrintUnit(m) + rest, done, cur, first) == Push(end, rest, done, cur + [m], first)
    decreases m, 1
  {
    match m
    case Leaf(t) => LeafRead(t, end, rest, done, cur, first);
    case Ref(name) => ReadHead(end, Reference(name), rest, PrintUnit(m) + rest, done, cur, first);
    case Series(pieces) =>
      SeriesBodyRead(m, Close, rest);
      ParensRead(PrintUnits(pieces), m, end, rest, done, cur, first);
    case Choice(branches) =>
      BranchesRead(branches, Close, rest, [], true);
      ChoiceAssembles(branches);
      ParensRead(PrintBranches(branches), m, end, rest, done, cur, first);
    case NamedSymbol(name, arg) =>
      ItemRead(arg, rest);
      NamedRead(name, arg, PrintItem(arg), end, rest, done, cur, first);
    case NamedCollector(name, arg) =>
      ItemRead(arg, rest);
      NamedRead(name, arg, PrintItem(arg), end, rest, done, cur, first);
  }

  /** Reading one item takes exactly the printed item. */
  lemma {:induction false} ItemRead(m: Matcher, rest: seq<RuleToken>)
    requires Normal(m)
    ensures Read(OneItem, PrintItem(m) + rest, [], [], true) == Parsed(m, rest)
    decreases m, 3
  {
    assert [] + [m] == [m];
    if m.OneOrNone? || m.Repeat? {
      UnitRead(m, Close, [Close] + rest, [], [], true);
      ClosedRead(m, rest);
      Regroup(PrintUnit(m), [Close], rest);
      ParensRead(PrintUnit(m), m, OneItem, rest, [], [], true);
    } else {
      PlainRead(m, OneItem, rest, [], [], true);
    }
  }

  lemma ClosedRead(m: Matcher, rest: seq<RuleToken>)
    ensures Read(Until(Close), [Close] + rest, [], [m], false) == Parsed(m, rest)
  {
    ReadHead(Until(Close), Close, rest, [Close] + rest, [], [m], false);
    assert [] + [[m]] == [[m]];
  }

  lemma {:induction false} UnitsRead(ms: seq<Matcher>, closer: RuleToken, rest: seq<RuleToken>,
      done: seq<seq<Matcher>>, cur: seq<Matcher>, first: bool)
    requires (forall i :: 0 <= i < |ms| ==> Normal(ms[i])) && IsCloser(closer)
    ensures Read(Until(closer), PrintUnits(ms) + rest, done, cur, first) ==
        Read(Until(closer), rest, done, cur + ms, false)
    decreases ms, 0
  {
    if ms == [] {
      assert PrintUnits(ms) + rest == rest && cur + ms == cur;
      FirstIrrelevant(closer, rest, done, cur, first);
    } else {
      UnitRead(ms[0], closer, PrintUnits(ms[1..]) + rest, done, cur, first);
      UnitsRead(ms[1..], closer, rest, done, cur + [ms[0]], false);
      UnitsText(ms, rest, cur);
    }
  }

  lemma UnitsText(ms: seq<Matcher>, rest: seq<RuleToken>, cur: seq<Matcher>)
    requires ms != []
    ensures PrintUnits(ms) + rest == PrintUnit(ms[0]) + (PrintUnits(ms[1..]) + rest)
    ensures cur + [ms[0]] + ms[1..] == cur + ms
  {
    Regroup(PrintUnit(ms[0]), PrintUnits(ms[1..]), rest);
    Regroup(cur, [ms[0]], ms[1..]);
    assert [ms[0]] + ms[1..] == ms;
  }

  /** Without a count to reach, it does not matter whether anything was counted. */
  lemma FirstIrrelevant(closer: RuleToken, toks: seq<RuleToken>, done: seq<seq<Matcher>>, cur: seq<Matcher>,
      first: bool)
    ensures Read(Until(closer), toks, done, cur, first) == Read(Until(closer), toks, done, cur, false)
  {
    if toks != [] {
      assert ReadToken(Until(closer), toks[0], toks[1..], done, cur, first) ==
             ReadToken(Until(closer), toks[0], toks[1..], done, cur, false);
    }
  }

  lemma SeriesBodyRead(m: Matcher, closer: RuleToken, rest: seq<RuleToken>)
    requires Normal(m) && m.Series? && IsCloser(closer)
    ensures Read(Until(closer), PrintUnits(m.pieces) + [closer] + rest, [], [], true) == Parsed(m, rest)
    decreases m, 0
  {
    UnitsRead(m.pieces, closer, [closer] + rest, [], [], true);
    assert PrintUnits(m.pieces) + [closer] + rest == PrintUnits(m.pieces) + ([closer] + rest);
    ReadHead(Until(closer), closer, rest, [closer] + rest, [], m.pieces, false);
    assert [] + m.pieces == m.pieces;
  }

  lemma BranchRead(m: Matcher, closer: RuleToken, rest: seq<RuleToken>, done: seq<seq<Matcher>>, first: bool)
    requires Normal(m) && IsCloser(closer)
    ensures Read(Until(closer), PrintBranch(m) + rest, done, [], first) ==
        Read(Until(closer), rest, done, Pieces(m), false)
    decreases m, 3
  {
    if m.Series? {
      UnitsRead(m.pieces, closer, rest, done, [], first);
      assert [] + m.pieces == m.pieces;
    } else {
      UnitRead(m, closer, rest, done, [], first);
      assert [] + [m] == [m];
    }
  }

  function AllPieces(ms: seq<Matcher>): (r: seq<seq<Matcher>>)
    ensures |r| == |ms|
    ensures forall i :: 0 <= i < |r| ==> r[i] == Pieces(ms[i])
  {
    seq(|ms|, i requires 0 <= i < |ms| => Pieces(ms[i]))
  }

  lemma LastBranchRead(m: Matcher, closer: RuleToken, rest: seq<RuleToken>, done: seq<seq<Matcher>>, first: bool)
    requires Normal(m) && IsCloser(closer)
    ensures Read(Until(closer), PrintBranch(m) + [closer] + rest, done, [], first) ==
        Parsed(Assemble(done + [Pieces(m)]), rest)
    decreases m, 4
  {
    assert PrintBranch(m) + [closer] + rest == PrintBranch(m) + ([closer] + rest);
    BranchRead(m, closer, [closer] + rest, done, first);
    ReadHead(Until(closer), closer, rest, [closer] + rest, done, Pieces(m), false);
  }

  lemma EarlierBranchRead(m: Matcher, closer: RuleToken, rest: seq<RuleToken>, done: seq<seq<Matcher>>, first: bool)
    requires Normal(m) && IsCloser(closer)
    ensures Read(Until(closer), PrintBranch(m) + [Bar] + rest, done, [], first) ==
        Read(Until(closer), rest, done + [Pieces(m)], [], false)
    decreases m, 4
  {
    assert PrintBranch(m) + [Bar] + rest == PrintBranch(m) + ([Bar] + rest);
    BranchRead(m, closer, [Bar] + rest, done, first);
    ReadHead(Until(closer), Bar, rest, [Bar] + rest, done, Pieces(m), false);
  }

  lemma BranchesText(ms: seq<Matcher>, closer: RuleToken, rest: seq<RuleToken>)
    requires |ms| > 1
    ensures PrintBranches(ms) + [closer] + rest ==
        PrintBranch(ms[0]) + [Bar] + (PrintBranches(ms[1..]) + [closer] + rest)
  {
    var a, b := PrintBranch(ms[0]) + [Bar], PrintBranches(ms[1..]);
    assert PrintBranches(ms) == a + b;
    assert a + b + [closer] + rest == a + (b + [closer] + rest);
  }

  lemma PiecesCons(ms: seq<Matcher>, done: seq<seq<Matcher>>)
    requires ms != []
    ensures done + [Pieces(ms[0])] + AllPieces(ms[1..]) == done + AllPieces(ms)
  {
    assert AllPieces(ms) == [Pieces(ms[0])] + AllPieces(ms[1..]);
  }

  lemma {:induction false} BranchesRead(ms: seq<Matcher>, closer: RuleToken, rest: seq<RuleToken>,
      done: seq<seq<Matcher>>, first: bool)
    requires ms != [] && (forall i :: 0 <= i < |ms| ==> Normal(ms[i])) && IsCloser(closer)
    ensures Read(Until(closer), PrintBranches(ms) + [closer] + rest, done, [], first) ==
            Parsed(Assemble(done + AllPieces(ms)), rest)
    decreases ms, 0
  {
    PiecesCons(ms, done);
    if |ms| == 1 {
      LastBranchRead(ms[0], closer, rest, done, first);
      assert AllPieces(ms[1..]) == [];
      assert done + [Pieces(ms[0])] + [] == done + [Pieces(ms[0])];
    } else {
      BranchesText(ms, closer, rest);
      EarlierBranchRead(ms[0], closer, PrintBranches(ms[1..]) + [closer] + rest, done, first);
      BranchesRead(ms[1..], closer, rest, done + [Pieces(ms[0])], false);
    }
  }

  lemma BranchMade(m: Matcher)
    requires Normal(m)
    ensures MkRule(Pieces(m)) == m
  {
  }

  lemma ChoiceAssembles(branches: seq<Matcher>)
    requires Normal(Choice(branches))
    ensures Assemble([] + AllPieces(branches)) == Choice(branches)
  {
    var all := AllPieces(branches);
    forall i | 0 <= i < |branches|
      ensures MkRules(all)[i] == branches[i]
    {
      assert all[i] == Pieces(branches[i]);
      BranchMade(branches[i]);
    }
    assert MkRules(all) == branches;
    assert [] + all == all;
  }

  /** The compiler is a left inverse of the printer on every normal tree. */
  lemma BodyRead(m: Matcher, closer: RuleToken, rest: seq<RuleToken>)
    requires Normal(m) && IsCloser(closer)
    ensures Read(Until(closer), PrintBody(m) + [closer] + rest, [], [], true) == Parsed(m, rest)
  {
    if m.Choice? {
      BranchesRead(m.branches, closer, rest, [], true);
      ChoiceAssembles(m.branches);
    } else {
      LastBranchRead(m, closer, rest, [], true);
      BranchMade(m);
      assert [] + [Pieces(m)] == [Pieces(m)];
    }
  }

  // ---- every tree that is read is one that is printed ----

  ghost predicate AllNormal(ms: seq<Matcher>) {
    forall i :: 0 <= i < |ms| ==> Normal(ms[i])
  }

  ghost predicate BranchesNormal(branches: seq<seq<Matcher>>) {
    forall i :: 0 <= i < |branches| ==> AllNormal(branches[i])
  }

  lemma AssembledNormal(branches: seq<seq<Matcher>>)
    requires branches != [] && BranchesNormal(branches)
    ensures Normal(Assemble(branches))
  {
    forall i | 0 <= i < |branches|
      ensures Normal(MkRule(branches[i]))
    {
      assert AllNormal(branches[i]);
    }
  }

  lemma {:induction false} ReadNormal(end: Ending, toks: seq<RuleToken>, done: seq<seq<Matcher>>, cur: seq<Matcher>,
      first: bool)
    requires BranchesNormal(done) && AllNormal(cur)
    ensures var r := Read(end, toks, done, cur, first); r.Parsed? ==> Normal(r.rule)
    decreases |toks|, 0
  {
    if toks != [] { TokenNormal(end, toks[0], toks[1..], done, cur, first); }
  }

  lemma {:induction false} TokenNormal(end: Ending, t: RuleToken, rest: seq<RuleToken>, done: seq<seq<Matcher>>,
      cur: seq<Matcher>, first: bool)
    requires BranchesNormal(done) && AllNormal(cur)
    ensures var r := ReadToken(end, t, rest, done, cur, first); r.Parsed? ==> Normal(r.rule)
    decreases |rest|, 2
  {
    if end == Until(t) {
      AssembledNormal(done + [cur]);
    } else {
      match t
      case Reference(name) => PushNormal(end, rest, done, cur, Ref(name), first);
      case LitString(lit) => PushNormal(end, rest, done, cur, Leaf(Text(lit)), first);
      case RegexLit(pattern) => PushNormal(end, rest, done, cur, Leaf(Regex(pattern)), first);
      case CollectorName(name) =>
        var inner := Read(OneItem, rest, [], [], true);
        ReadNormal(OneItem, rest, [], [], true);
        if inner.Parsed? { PushNormal(end, inner.rest, done, cur, NamedCollector(name, inner.rule), first); }
      case SymbolName(name) =>
        var inner := Read(OneItem, rest, [], [], true);
        ReadNormal(OneItem, rest, [], [], true);
        if inner.Parsed? { PushNormal(end, inner.rest, done, cur, NamedSymbol(name, inner.rule), first); }
      case Open =>
        var inner := Read(Until(Close), rest, [], [], true);
        ReadNormal(Until(Close), rest, [], [], true);
        if inner.Parsed? { PushNormal(end, inner.rest, done, cur, inner.rule, first); }
      case Question =>
        if cur != [] { PushNormal(end, rest, done, cur[..|cur| - 1], OneOrNone(cur[|cur| - 1]), first); }
      case Star =>
        if cur != [] { PushNormal(end, rest, done, cur[..|cur| - 1], Repeat(cur[|cur| - 1]), first); }
      case At =>
        if rest != [] && rest[0].LitString? {
          PushNormal(end, rest[1..], done, cur, Leaf(CaseText(rest[0].lit)), first);
        }
      case Bar => ReadNormal(end, rest, done + [cur], [], false);
      case _ =>
    }
  }

  lemma {:induction false} PushNormal(end: Ending, rest: seq<RuleToken>, done: seq<seq<Matcher>>, cur: seq<Matcher>,
      m: Matcher, first: bool)
    requires BranchesNormal(done) && AllNormal(cur) && Normal(m)
    ensures var r := Push(end, rest, done, cur + [m], first); r.Parsed? ==> Normal(r.rule)
    decreases |rest|, 1
  {
    if end.OneItem? && first {
      AssembledNormal(done + [cur + [m]]);
    } else {
      ReadNormal(end, rest, done, cur + [m], false);
    }
  }

  /** Whatever text is accepted, printing the tree that is read from it and reading that again gives
      the same tree. */
  lemma ReadAgain(toks: seq<RuleToken>, closer: RuleToken, rest: seq<RuleToken>)
    requires IsCloser(closer) && Read(Until(closer), toks, [], [], true).Parsed?
    ensures
      var m := Read(Until(closer), toks, [], [], true).rule;
      Normal(m) && Read(Until(closer), PrintBody(m) + [closer] + rest, [], [], true) == Parsed(m, rest)
  {
    ReadNormal(Until(closer), toks, [], [], true);
    BodyRead(Read(Until(closer), toks, [], [], true).rule, closer, rest);
  }

  // ---- what is refused ----

  /** Printed branches are read up to the pieces of the last one, whatever follows. */
  lemma {:induction false} BranchesGoOn(ms: seq<Matcher>, closer: RuleToken, rest: seq<RuleToken>,
      done: seq<seq<Matcher>>, first: bool)
    returns (before: seq<seq<Matcher>>, cur: seq<Matcher>)
    requires ms != [] && (forall i :: 0 <= i < |ms| ==> Normal(ms[i])) && IsCloser(closer)
    ensures Read(Until(closer), PrintBranches(ms) + rest, done, [], first) ==
            Read(Until(closer), rest, before, cur, false)
    decreases ms
  {
    if |ms| == 1 {
      BranchRead(ms[0], closer, rest, done, first);
      before, cur := done, Pieces(ms[0]);
    } else {
      var more := PrintBranches(ms[1..]) + rest;
      assert PrintBranches(ms) + rest == PrintBranch(ms[0]) + [Bar] + more;
      EarlierBranchRead(ms[0], closer, more, done, first);
      before, cur := BranchesGoOn(ms[1..], closer, rest, done + [Pieces(ms[0])], false);
    }
  }

  lemma BodyGoesOn(m: Matcher, closer: RuleToken, rest: seq<RuleToken>)
    returns (before: seq<seq<Matcher>>, cur: seq<Matcher>)
    requires Normal(m) && IsCloser(closer)
    ensures Read(Until(closer), PrintBody(m) + rest, [], [], true) == Read(Until(closer), rest, before, cur, false)
  {
    if m.Choice? {
      before, cur := BranchesGoOn(m.branches, closer, rest, [], true);
    } else {
      BranchRead(m, closer, rest, [], true);
      before, cur := [], Pieces(m);
    }
  }

  /** Tokens that cannot stand where a piece may begin or a body may end. */
  predicate Misplaced(t: RuleToken, closer: RuleToken) {
    t == Assign || (IsCloser(t) && t != closer)
  }

  /** After any body: an end without the closing token, and a closing token of the other kind or
      another misplaced token, are errors. */
  lemma BodyRefused(m: Matcher, closer: RuleToken, t: RuleToken, rest: seq<RuleToken>)
    requires Normal(m) && IsCloser(closer)
    ensures Read(Until(closer), PrintBody(m), [], [], true).Malformed?
    ensures Misplaced(t, closer) ==> Read(Until(closer), PrintBody(m) + ([t] + rest), [], [], true).Malformed?
  {
    var d, c := BodyGoesOn(m, closer, []);
    assert PrintBody(m) + [] == PrintBody(m);
    d, c := BodyGoesOn(m, closer, [t] + rest);
    ReadHead(Until(closer), t, rest, [t] + rest, d, c, false);
  }

  lemma NothingToRepeat(closer: RuleToken, t: RuleToken, rest: seq<RuleToken>, done: seq<seq<Matcher>>,
      cur: seq<Matcher>)
    requires IsCloser(closer) && (t == Question || t == Star)
    ensures Read(Until(closer), [Bar] + ([t] + rest), done, cur, false).Malformed?
  {
    ReadHead(Until(closer), Bar, [t] + rest, [Bar] + ([t] + rest), done, cur, false);
    ReadHead(Until(closer), t, rest, [t] + rest, done + [cur], [], false);
  }

  lemma NothingToMark(closer: RuleToken, t: RuleToken, rest: seq<RuleToken>, done: seq<seq<Matcher>>,
      cur: seq<Matcher>)
    requires IsCloser(closer) && !t.LitString?
    ensures Read(Until(closer), [At] + ([t] + rest), done, cur, false).Malformed?
  {
    ReadHead(Until(closer), At, [t] + rest, [At] + ([t] + rest), done, cur, false);
  }

  /** So are a postfix with nothing in front of it, and an @ without a literal behind it. */
  lemma PieceRefused(m: Matcher, closer: RuleToken, t: RuleToken, rest: seq<RuleToken>)
    requires Normal(m) && IsCloser(closer)
    ensures t == Question || t == Star ==>
              Read(Until(closer), PrintBody(m) + ([Bar] + ([t] + rest)), [], [], true).Malformed?
    ensures !t.LitString? ==> Read(Until(closer), PrintBody(m) + ([At] + ([t] + rest)), [], [], true).Malformed?
  {
    var postfix, mark := [Bar] + ([t] + rest), [At] + ([t] + rest);
    var d, c := BodyGoesOn(m, closer, postfix);
    if t == Question || t == Star { NothingToRepeat(closer, t, rest, d, c); }
    d, c := BodyGoesOn(m, closer, mark);
    if !t.LitString? { NothingToMark(closer, t, rest, d, c); }
  }

  // ---- whole rule tables ----

  datatype RuleDef = RuleDef(name: string, junk: bool, body: Matcher)

  datatype Table = Rules(rules: map<string, Matcher>, terminals: seq<(string, Terminal)>) | BadTable

  /** parse_rules: a rule that is a bare terminal becomes a token class. */
  function ParseRules(toks: seq<RuleToken>, rules: map<string, Matcher>, terminals: seq<(string, Terminal)>): Table
    decreases |toks|
  {
    if toks == [] then Rules(rules, terminals)
    else if !(toks[0].Reference? || toks[0].Junk?) || |toks| < 2 || toks[1] != Assign then BadTable
    else
      var name, r := toks[0].name, Read(Until(Semi), toks[2..], [], [], true);
      if r.Malformed? then BadTable
      else if r.rule.Leaf? then
        ParseRules(r.rest, rules[name := TypeOf(name, r.rule.term)], terminals + [(name, r.rule.term)])
      else ParseRules(r.rest, rules[name := r.rule], terminals)
  }

  function PrintRules(defs: seq<RuleDef>): seq<RuleToken> {
    if defs == [] then []
    else
      var d := defs[0];
      [if d.junk then Junk(d.name) else Reference(d.name), Assign] + PrintBody(d.body) + [Semi] + PrintRules(defs[1..])
  }

  /** The table a list of definitions stands for: later definitions of a name win. */
  function TableOf(defs: seq<RuleDef>): map<string, Matcher> {
    if defs == [] then map[]
    else
      var d := defs[|defs| - 1];
      TableOf(defs[..|defs| - 1])[d.name := if d.body.Leaf? then TypeOf(d.name, d.body.term) else d.body]
  }

  function TerminalsOf(defs: seq<RuleDef>): seq<(string, Terminal)> {
    if defs == [] then []
    else
      var d := defs[|defs| - 1];
      TerminalsOf(defs[..|defs| - 1]) + if d.body.Leaf? then [(d.name, d.body.term)] else []
  }

  lemma ParseRule(d: RuleDef, rest: seq<RuleToken>, toks: seq<RuleToken>, rules: map<string, Matcher>,
      terminals: seq<(string, Terminal)>)
    requires Normal(d.body)
    requires toks == [if d.junk then Junk(d.name) else Reference(d.name), Assign] + PrintBody(d.body) + [Semi] + rest
    ensures ParseRules(toks, rules, terminals) ==
            if d.body.Leaf? then ParseRules(rest, rules[d.name := TypeOf(d.name, d.body.term)], terminals
                + [(d.name, d.body.term)])
            else ParseRules(rest, rules[d.name := d.body], terminals)
  {
    BodyRead(d.body, Semi, rest);
    assert toks[2..] == PrintBody(d.body) + [Semi] + rest;
    assert toks[0].name == d.name && toks[1] == Assign;
  }

  lemma TableSnoc(before: seq<RuleDef>, d: RuleDef)
    ensures TableOf(before + [d]) ==
        TableOf(before)[d.name := if d.body.Leaf? then TypeOf(d.name, d.body.term) else d.body]
    ensures TerminalsOf(before + [d]) == TerminalsOf(before) + if d.body.Leaf? then [(d.name, d.body.term)] else []
  {
    assert (before + [d])[..|before|] == before;
  }

  /** Parsing the text of a list of normal definitions gives back the table it defines. */
  lemma {:induction false} RulesRoundTrip(before: seq<RuleDef>, defs: seq<RuleDef>)
    requires forall i :: 0 <= i < |defs| ==> Normal(defs[i].body)
    ensures ParseRules(PrintRules(defs), TableOf(before), TerminalsOf(before)) ==
            Rules(TableOf(before + defs), TerminalsOf(before + defs))
    decreases |defs|
  {
    if defs == [] {
      assert before + defs == before;
    } else {
      FirstRule(before, defs);
      Rotate(before, defs);
      RulesRoundTrip(before + [defs[0]], defs[1..]);
    }
  }

  lemma Rotate<T>(a: seq<T>, b: seq<T>)
    requires b != []
    ensures a + [b[0]] + b[1..] == a + b
  {
  }

  lemma FirstRule(before: seq<RuleDef>, defs: seq<RuleDef>)
    requires defs != [] && Normal(defs[0].body)
    ensures var longer := before + [defs[0]];
      ParseRules(PrintRules(defs), TableOf(before), TerminalsOf(before)) ==
      ParseRules(PrintRules(defs[1..]), TableOf(longer), TerminalsOf(longer))
  {
    var d := defs[0];
    ParseRule(d, PrintRules(defs[1..]), PrintRules(defs), TableOf(before), TerminalsOf(before));
    TableSnoc(before, d);
    assert TerminalsOf(before) + [] == TerminalsOf(before);
  }
}
