/** The completions collected while matching: they never influence the match, and they are exactly
    the terminals the grammar expects after the given tokens. */
module Completion {
  import opened Pylexotron
  import opened GrammarSemantics

  // ---- collecting does not change what is found ----

  ghost predicate SameMatch(r: Outcome, s: Outcome) {
    match r
    case Found(ctxts, _) => s.Found? && s.ctxts == ctxts
    case _ => s == r
  }

  lemma {:induction false} CollectIrrelevant(g: RuleSet, fuel: nat, m: Matcher, c: Context)
    ensures SameMatch(Match(g, fuel, m, c, true), Match(g, fuel, m, c, false))
    decreases fuel, m, 0, 0
  {
    match m
    case Leaf(_) =>
    case TypeOf(_, _) =>
    case Choice(branches) => ChoiceCollect(g, fuel, branches, c);
    case OneOrNone(arg) => CollectIrrelevant(g, fuel, arg, c);
    case Repeat(arg) => RepeatCollect(g, fuel, arg, [c]);
    case Ref(name) =>
      if fuel > 0 && name in g.rules { CollectIrrelevant(g, fuel - 1, g.rules[name], c.(production := name)); }
    case Series(pieces) => SeriesCollect(g, fuel, pieces, [c]);
    case NamedSymbol(_, arg) => CollectIrrelevant(g, fuel, arg, c);
    case NamedCollector(_, arg) => CollectIrrelevant(g, fuel, arg, c);
  }

  lemma {:induction false} EachCollect(g: RuleSet, fuel: nat, m: Matcher, cs: seq<Context>)
    ensures SameMatch(MatchEach(g, fuel, m, cs, true), MatchEach(g, fuel, m, cs, false))
    decreases fuel, m, 1, |cs|
  {
    if cs != [] {
      CollectIrrelevant(g, fuel, m, cs[0]);
      EachCollect(g, fuel, m, cs[1..]);
    }
  }

  lemma {:induction false} ChoiceCollect(g: RuleSet, fuel: nat, ms: seq<Matcher>, c: Context)
    ensures SameMatch(MatchChoice(g, fuel, ms, c, true), MatchChoice(g, fuel, ms, c, false))
    decreases fuel, ms, 0, 0
  {
    if ms != [] {
      CollectIrrelevant(g, fuel, ms[0], c);
      ChoiceCollect(g, fuel, ms[1..], c);
    }
  }

  lemma {:induction false} SeriesCollect(g: RuleSet, fuel: nat, ms: seq<Matcher>, cs: seq<Context>)
    ensures SameMatch(MatchSeries(g, fuel, ms, cs, true), MatchSeries(g, fuel, ms, cs, false))
    decreases fuel, ms, 0, 0
  {
    if ms != [] {
      EachCollect(g, fuel, ms[0], cs);
      var r := MatchEach(g, fuel, ms[0], cs, true);
      if r.Found? { SeriesCollect(g, fuel, ms[1..], r.ctxts); }
    }
  }

  lemma {:induction false} RepeatCollect(g: RuleSet, fuel: nat, m: Matcher, cs: seq<Context>)
    ensures SameMatch(MatchRepeat(g, fuel, m, cs, true), MatchRepeat(g, fuel, m, cs, false))
    decreases fuel, m, 2, 0
  {
    EachCollect(g, fuel, m, cs);
    var r := MatchEach(g, fuel, m, cs, true);
    if r.Found? && fuel > 0 { RepeatCollect(g, fuel - 1, m, r.ctxts); }
  }

  // ---- what the grammar expects next ----

  /** A named matcher that begins in the context `at`. */
  datatype Name = Name(sym: string, at: Context)

  /** A position of the grammar where the input ends: a terminal or named matcher, the context it is
      reached in, the matchers still to come behind it, and the named matchers around it that begin
      there too, outermost first. */
  datatype Position = Position(target: Matcher, at: Context, todo: seq<Matcher>, around: seq<Name>)

  /** `p` with the matchers `rest` behind everything else. */
  function Before(p: Position, rest: seq<Matcher>): Position {
    p.(todo := p.todo + rest)
  }

  predicate Follows(p: Position, rest: seq<Matcher>) {
    |rest| <= |p.todo| && p.todo[|p.todo| - |rest|..] == rest
  }

  function Inner(p: Position, rest: seq<Matcher>): Position
    requires Follows(p, rest)
  {
    p.(todo := p.todo[..|p.todo| - |rest|])
  }

  lemma InnerBefore(p: Position, rest: seq<Matcher>)
    ensures Follows(Before(p, rest), rest) && Inner(Before(p, rest), rest) == p
  {
  }

  /** `p` inside the named matcher `name`. */
  function Within(p: Position, name: Name): Position {
    p.(around := [name] + p.around)
  }

  predicate IsTerminal(m: Matcher) {
    m.Leaf? || m.TypeOf?
  }

  function PositionLabel(p: Position): Completion
    requires IsTerminal(p.target)
  {
    Label(if p.target.Leaf? then p.target.term else p.target.sub, p.at.production)
  }

  /** A terminal offers its word as it is written in the grammar, and a pattern the name of the
      production it stands in. */
  lemma LabelExact(t: Terminal, production: string)
    ensures !t.Regex? ==> Label(t, production) == Word(t.lit)
    ensures t.Regex? ==> Label(t, production) == Hint(production)
  {
  }

  /** After consuming the whole input of `c` inside `m`, with rules and repeat rounds nested at most
      `n` deep, the next thing `m` may need is at `p`. */
  ghost predicate Expects(g: RuleSet, n: nat, m: Matcher, c: Context, p: Position)
    decreases n, m, 0
  {
    match m
    case Leaf(_) => c.remainder == [] && p == Position(m, c, [], [])
    case TypeOf(_, _) => c.remainder == [] && p == Position(m, c, [], [])
    case Choice(branches) => exists i :: 0 <= i < |branches| && Expects(g, n, branches[i], c, p)
    case OneOrNone(arg) => Expects(g, n, arg, c, p)
    case Repeat(arg) => ExpectsStar(g, n, arg, c, p)
    case Ref(name) => n > 0 && name in g.rules && Expects(g, n - 1, g.rules[name], c.(production := name), p)
    case Series(pieces) => ExpectsSeq(g, n, pieces, c, p)
    case NamedSymbol(_, _) => ExpectsNamed(g, n, m, c, p)
    case NamedCollector(_, _) => ExpectsNamed(g, n, m, c, p)
  }

  /** A named matcher `m` that begins where the input ends is a position itself, and stands around
      the positions in it. */
  ghost predicate ExpectsNamed(g: RuleSet, n: nat, m: Matcher, c: Context, p: Position)
    requires IsNamed(m)
    decreases n, m.arg, 2
  {
    if c.remainder != [] then Expects(g, n, m.arg, c, p)
    else
      || p == Position(m, c, [], [])
      || (p.around != [] && p.around[0] == Name(m.sym, c) && Expects(g, n, m.arg, c, p.(around := p.around[1..])))
  }

  ghost predicate ExpectsSeq(g: RuleSet, n: nat, ms: seq<Matcher>, c: Context, p: Position)
    decreases n, ms, 0
  {
    && ms != []
    && (|| (Follows(p, ms[1..]) && Expects(g, n, ms[0], c, Inner(p, ms[1..])))
        || exists d :: Leads(g, n, ms[0], c, d) && ExpectsSeq(g, n, ms[1..], d, p))
  }

  ghost predicate ExpectsStar(g: RuleSet, n: nat, m: Matcher, c: Context, p: Position)
    decreases n, m, 1
  {
    || (Follows(p, [Repeat(m)]) && Expects(g, n, m, c, Inner(p, [Repeat(m)])))
    || (n > 0 && exists d :: Leads(g, n, m, c, d) && ExpectsStar(g, n - 1, m, d, p))
  }

  // ---- what a position offers ----

  /** The completer registered for a named matcher answers with these words. */
  ghost predicate Answers(g: RuleSet, name: Name, words: set<Completion>) {
    var key := (name.at.production, name.sym);
    name.at.remainder == [] && key in g.completers && g.completers[key](name.at) == Offered(words)
  }

  ghost predicate Silent(g: RuleSet, name: Name) {
    forall words :: !Answers(g, name, words)
  }

  /** No named matcher around `p` has a completer that answers. */
  ghost predicate Open(g: RuleSet, p: Position) {
    AllSilent(g, p.around)
  }

  ghost predicate AllSilent(g: RuleSet, names: seq<Name>) {
    forall i :: 0 <= i < |names| ==> Silent(g, names[i])
  }

  /** `p` offers `w`: as the label of a terminal, or as a word of a completer that answers. */
  ghost predicate Offers(g: RuleSet, p: Position, w: Completion) {
    || (IsTerminal(p.target) && PositionLabel(p) == w)
    || (IsNamed(p.target) && HasWord(g, Name(p.target.sym, p.at), w))
  }

  ghost predicate HasWord(g: RuleSet, name: Name, w: Completion) {
    exists words :: Answers(g, name, words) && w in words
  }

  /** A completer is asked exactly where the input ends. */
  lemma CompleterAsked(g: RuleSet, sym: string, c: Context, words: set<Completion>)
    ensures RegisteredCompletion(g, sym, c, true) == Offered(words) <==> Answers(g, Name(sym, c), words)
  {
  }

  // ---- soundness: every completion is offered by an open position ----

  lemma {:induction false} OfferSound(g: RuleSet, fuel: nat, m: Matcher, c: Context, w: Completion)
    returns (p: Position)
    requires Match(g, fuel, m, c, true).Found? && w in Match(g, fuel, m, c, true).offered
    ensures Expects(g, fuel, m, c, p) && Open(g, p) && Offers(g, p, w)
    decreases fuel, m, 0
  {
    match m
    case Leaf(_) => p := Position(m, c, [], []);
    case TypeOf(_, _) => p := Position(m, c, [], []);
    case Choice(branches) =>
      var i;
      p, i := ChoiceOfferSound(g, fuel, branches, c, w);
    case OneOrNone(arg) => p := OfferSound(g, fuel, arg, c, w);
    case Repeat(arg) =>
      var d;
      p, d := RepeatOfferSound(g, fuel, arg, [c], w);
    case Ref(name) => p := OfferSound(g, fuel - 1, g.rules[name], c.(production := name), w);
    case Series(pieces) =>
      var d;
      p, d := SeriesOfferSound(g, fuel, pieces, [c], w);
    case NamedSymbol(_, _) => p := NamedOfferSound(g, fuel, m, c, w);
    case NamedCollector(_, _) => p := NamedOfferSound(g, fuel, m, c, w);
  }

  lemma {:induction false} NamedOfferSound(g: RuleSet, fuel: nat, m: Matcher, c: Context, w: Completion)
    returns (p: Position)
    requires IsNamed(m) && Match(g, fuel, m, c, true).Found? && w in Match(g, fuel, m, c, true).offered
    ensures ExpectsNamed(g, fuel, m, c, p) && Open(g, p) && Offers(g, p, w)
    decreases fuel, m.arg, 2
  {
    match RegisteredCompletion(g, m.sym, c, true)
    case Offered(words) =>
      CompleterAsked(g, m.sym, c, words);
      p := Position(m, c, [], []);
    case Raised =>
      p := OfferSound(g, fuel, m.arg, c, w);
      if c.remainder == [] {
        forall words
          ensures !Answers(g, Name(m.sym, c), words)
        {
          CompleterAsked(g, m.sym, c, words);
        }
        var q := p;
        p := Within(q, Name(m.sym, c));
        assert p.(around := p.around[1..]) == q;
      }
  }

  lemma {:induction false} ChoiceOfferSound(g: RuleSet, fuel: nat, ms: seq<Matcher>, c: Context, w: Completion)
    returns (p: Position, i: nat)
    requires MatchChoice(g, fuel, ms, c, true).Found? && w in MatchChoice(g, fuel, ms, c, true).offered
    ensures i < |ms| && Expects(g, fuel, ms[i], c, p) && Open(g, p) && Offers(g, p, w)
    decreases fuel, ms, 0
  {
    if w in Match(g, fuel, ms[0], c, true).offered {
      p := OfferSound(g, fuel, ms[0], c, w);
      i := 0;
    } else {
      p, i := ChoiceOfferSound(g, fuel, ms[1..], c, w);
      i := i + 1;
    }
  }

  lemma {:induction false} SeriesOfferSound(g: RuleSet, fuel: nat, ms: seq<Matcher>, cs: seq<Context>, w: Completion)
    returns (p: Position, c: Context)
    requires MatchSeries(g, fuel, ms, cs, true).Found? && w in MatchSeries(g, fuel, ms, cs, true).offered
    ensures c in cs && ExpectsSeq(g, fuel, ms, c, p) && Open(g, p) && Offers(g, p, w)
    decreases fuel, ms, 0
  {
    var r := MatchEach(g, fuel, ms[0], cs, true);
    if w in r.offered {
      c := EachOfferSource(g, fuel, ms[0], cs, true, w);
      var q := OfferSound(g, fuel, ms[0], c, w);
      InnerBefore(q, ms[1..]);
      p := Before(q, ms[1..]);
    } else {
      var d;
      p, d := SeriesOfferSound(g, fuel, ms[1..], r.ctxts, w);
      c := EachSource(g, fuel, ms[0], cs, true, d);
      MatchSound(g, fuel, ms[0], c, true, d);
      assert Leads(g, fuel, ms[0], c, d);
    }
  }

  lemma {:induction false} RepeatOfferSound(g: RuleSet, fuel: nat, m: Matcher, cs: seq<Context>, w: Completion)
    returns (p: Position, c: Context)
    requires MatchRepeat(g, fuel, m, cs, true).Found? && w in MatchRepeat(g, fuel, m, cs, true).offered
    ensures c in cs && ExpectsStar(g, fuel, m, c, p) && Open(g, p) && Offers(g, p, w)
    decreases fuel, m, 1
  {
    var r := MatchEach(g, fuel, m, cs, true);
    if w in r.offered {
      c := EachOfferSource(g, fuel, m, cs, true, w);
      var q := OfferSound(g, fuel, m, c, w);
      InnerBefore(q, [Repeat(m)]);
      p := Before(q, [Repeat(m)]);
    } else {
      var d;
      p, d := RepeatOfferSound(g, fuel - 1, m, r.ctxts, w);
      c := EachSource(g, fuel, m, cs, true, d);
      MatchSound(g, fuel, m, c, true, d);
      assert Leads(g, fuel, m, c, d);
    }
  }

  // ---- completeness: all that an open position offers is collected ----

  lemma {:induction false} OfferComplete(g: RuleSet, fuel: nat, n: nat, m: Matcher, c: Context, p: Position,
      w: Completion)
    requires Match(g, fuel, m, c, true).Found? && Expects(g, n, m, c, p) && Open(g, p) && Offers(g, p, w)
    ensures w in Match(g, fuel, m, c, true).offered
    decreases n, m, 0
  {
    match m
    case Leaf(_) =>
    case TypeOf(_, _) =>
    case Choice(branches) =>
      var i :| 0 <= i < |branches| && Expects(g, n, branches[i], c, p);
      ChoiceOfferComplete(g, fuel, n, branches, i, c, p, w);
    case OneOrNone(arg) => OfferComplete(g, fuel, n, arg, c, p, w);
    case Repeat(arg) => RepeatOfferComplete(g, fuel, n, arg, [c], c, p, w);
    case Ref(name) => OfferComplete(g, fuel - 1, n - 1, g.rules[name], c.(production := name), p, w);
    case Series(pieces) => SeriesOfferComplete(g, fuel, n, pieces, [c], c, p, w);
    case NamedSymbol(_, _) => NamedOfferComplete(g, fuel, n, m, c, p, w);
    case NamedCollector(_, _) => NamedOfferComplete(g, fuel, n, m, c, p, w);
  }

  lemma {:induction false} NamedOfferComplete(g: RuleSet, fuel: nat, n: nat, m: Matcher, c: Context, p: Position,
      w: Completion)
    requires IsNamed(m) && Match(g, fuel, m, c, true).Found?
    requires ExpectsNamed(g, n, m, c, p) && Open(g, p) && Offers(g, p, w)
    ensures w in Match(g, fuel, m, c, true).offered
    decreases n, m.arg, 2
  {
    if c.remainder != [] {
      OfferComplete(g, fuel, n, m.arg, c, p, w);
    } else if p == Position(m, c, [], []) {
      var words :| Answers(g, Name(m.sym, c), words) && w in words;
      CompleterAsked(g, m.sym, c, words);
    } else {
      assert Silent(g, p.around[0]);
      var r := RegisteredCompletion(g, m.sym, c, true);
      if r.Offered? { CompleterAsked(g, m.sym, c, r.words); }
      OfferComplete(g, fuel, n, m.arg, c, p.(around := p.around[1..]), w);
    }
  }

  lemma {:induction false} ChoiceOfferComplete(g: RuleSet, fuel: nat, n: nat, ms: seq<Matcher>, i: nat, c: Context,
      p: Position, w: Completion)
    requires i < |ms| && MatchChoice(g, fuel, ms, c, true).Found?
    requires Expects(g, n, ms[i], c, p) && Open(g, p) && Offers(g, p, w)
    ensures w in MatchChoice(g, fuel, ms, c, true).offered
    decreases n, ms, 0
  {
    if i == 0 {
      OfferComplete(g, fuel, n, ms[0], c, p, w);
    } else {
      ChoiceOfferComplete(g, fuel, n, ms[1..], i - 1, c, p, w);
    }
  }

  lemma {:induction false} SeriesOfferComplete(g: RuleSet, fuel: nat, n: nat, ms: seq<Matcher>, cs: seq<Context>,
      c: Context, p: Position, w: Completion)
    requires c in cs && MatchSeries(g, fuel, ms, cs, true).Found?
    requires ExpectsSeq(g, n, ms, c, p) && Open(g, p) && Offers(g, p, w)
    ensures w in MatchSeries(g, fuel, ms, cs, true).offered
    decreases n, ms, 0
  {
    EachIncludes(g, fuel, ms[0], cs, true, c);
    if Follows(p, ms[1..]) && Expects(g, n, ms[0], c, Inner(p, ms[1..])) {
      OfferComplete(g, fuel, n, ms[0], c, Inner(p, ms[1..]), w);
    } else {
      var d :| Leads(g, n, ms[0], c, d) && ExpectsSeq(g, n, ms[1..], d, p);
      LeadsFound(g, fuel, n, ms[0], c, true, d);
      SeriesOfferComplete(g, fuel, n, ms[1..], MatchEach(g, fuel, ms[0], cs, true).ctxts, d, p, w);
    }
  }

  lemma RoundOffers(g: RuleSet, fuel: nat, m: Matcher, cs: seq<Context>, c: Context, w: Completion)
    requires MatchRepeat(g, fuel, m, cs, true).Found? && c in cs
    requires Match(g, fuel, m, c, true).Found? && w in Match(g, fuel, m, c, true).offered
    ensures w in MatchRepeat(g, fuel, m, cs, true).offered
  {
    RepeatRound(g, fuel, m, cs, true);
    EachIncludes(g, fuel, m, cs, true, c);
  }

  lemma LaterOffers(g: RuleSet, fuel: nat, m: Matcher, cs: seq<Context>, w: Completion)
    requires MatchRepeat(g, fuel, m, cs, true).Found? && fuel > 0
    requires
      var next := MatchEach(g, fuel, m, cs, true).ctxts;
      && next != [] && MatchRepeat(g, fuel - 1, m, next, true).Found?
      && w in MatchRepeat(g, fuel - 1, m, next, true).offered
    ensures w in MatchRepeat(g, fuel, m, cs, true).offered
  {
    RepeatRound(g, fuel, m, cs, true);
  }

  /** A position is expected in this round of a repeat, or in a later one. */
  lemma ThisRound(g: RuleSet, n: nat, m: Matcher, c: Context, p: Position) returns (now: bool, d: Context)
    requires ExpectsStar(g, n, m, c, p)
    ensures now ==> Follows(p, [Repeat(m)]) && Expects(g, n, m, c, Inner(p, [Repeat(m)]))
    ensures !now ==> n > 0 && Leads(g, n, m, c, d) && ExpectsStar(g, n - 1, m, d, p)
  {
    now, d := Follows(p, [Repeat(m)]) && Expects(g, n, m, c, Inner(p, [Repeat(m)])), c;
    if !now {
      d :| Leads(g, n, m, c, d) && ExpectsStar(g, n - 1, m, d, p);
    }
  }

  lemma {:induction false} RepeatOfferComplete(g: RuleSet, fuel: nat, n: nat, m: Matcher, cs: seq<Context>,
      c: Context, p: Position, w: Completion)
    requires c in cs && MatchRepeat(g, fuel, m, cs, true).Found?
    requires ExpectsStar(g, n, m, c, p) && Open(g, p) && Offers(g, p, w)
    ensures w in MatchRepeat(g, fuel, m, cs, true).offered
    decreases n, m, 2
  {
    var now, d := ThisRound(g, n, m, c, p);
    if now {
      OfferedNow(g, fuel, n, m, cs, c, Inner(p, [Repeat(m)]), w);
    } else {
      OfferedLater(g, fuel, n, m, cs, c, d, p, w);
    }
  }

  lemma {:induction false} OfferedNow(g: RuleSet, fuel: nat, n: nat, m: Matcher, cs: seq<Context>, c: Context,
      p: Position, w: Completion)
    requires c in cs && MatchRepeat(g, fuel, m, cs, true).Found?
    requires Expects(g, n, m, c, p) && Open(g, p) && Offers(g, p, w)
    ensures w in MatchRepeat(g, fuel, m, cs, true).offered
    decreases n, m, 1
  {
    FrontierMatches(g, fuel, m, cs, true, c);
    OfferComplete(g, fuel, n, m, c, p, w);
    RoundOffers(g, fuel, m, cs, c, w);
  }

  lemma {:induction false} OfferedLater(g: RuleSet, fuel: nat, n: nat, m: Matcher, cs: seq<Context>, c: Context,
      d: Context, p: Position, w: Completion)
    requires c in cs && MatchRepeat(g, fuel, m, cs, true).Found? && n > 0
    requires Leads(g, n, m, c, d) && ExpectsStar(g, n - 1, m, d, p) && Open(g, p) && Offers(g, p, w)
    ensures w in MatchRepeat(g, fuel, m, cs, true).offered
    decreases n, m, 1
  {
    FrontierMatches(g, fuel, m, cs, true, c);
    LeadsFound(g, fuel, n, m, c, true, d);
    NextRound(g, fuel, m, cs, true, c, d);
    RepeatOfferComplete(g, fuel - 1, n - 1, m, MatchEach(g, fuel, m, cs, true).ctxts, d, p, w);
    LaterOffers(g, fuel, m, cs, w);
  }

  /** Some open position expected from `c` on offers `w`. */
  ghost predicate Expected(g: RuleSet, m: Matcher, c: Context, w: Completion) {
    exists n: nat, p :: Expects(g, n, m, c, p) && Open(g, p) && Offers(g, p, w)
  }

  /** For every table, complete() returns exactly the labels of the terminals that the start rule
      expects after the whole token list under no named matcher whose completer answers there, and
      the words of the completers that answer there under no other such one. A completer is asked
      with the bindings of the derivation that leads to it. */
  lemma CompletionExact(g: RuleSet, fuel: nat, start: string, toks: seq<Token>)
    requires start in g.rules
    requires Match(g, fuel, g.rules[start], InitialContext(start, toks), true).Found?
    ensures forall w :: w in Match(g, fuel, g.rules[start], InitialContext(start, toks), true).offered <==>
              Expected(g, g.rules[start], InitialContext(start, toks), w)
  {
    var m, c := g.rules[start], InitialContext(start, toks);
    forall w
      ensures w in Match(g, fuel, m, c, true).offered <==> Expected(g, m, c, w)
    {
      if w in Match(g, fuel, m, c, true).offered {
        var p := OfferSound(g, fuel, m, c, w);
      } else if Expected(g, m, c, w) {
        var n: nat, p :| Expects(g, n, m, c, p) && Open(g, p) && Offers(g, p, w);
        OfferComplete(g, fuel, n, m, c, p, w);
      }
    }
  }

  ghost predicate ExpectedTerminal(g: RuleSet, m: Matcher, c: Context, w: Completion) {
    exists n: nat, p :: Expects(g, n, m, c, p) && IsTerminal(p.target) && PositionLabel(p) == w
  }

  /** With no completers registered these are the labels of all the terminals expected. */
  lemma CompletionPlain(g: RuleSet, fuel: nat, start: string, toks: seq<Token>)
    requires g.completers == map[] && start in g.rules
    requires Match(g, fuel, g.rules[start], InitialContext(start, toks), true).Found?
    ensures forall w :: w in Match(g, fuel, g.rules[start], InitialContext(start, toks), true).offered <==>
              ExpectedTerminal(g, g.rules[start], InitialContext(start, toks), w)
  {
    var m, c := g.rules[start], InitialContext(start, toks);
    CompletionExact(g, fuel, start, toks);
    forall w
      ensures Expected(g, m, c, w) <==> ExpectedTerminal(g, m, c, w)
    {
      if ExpectedTerminal(g, m, c, w) {
        var n: nat, p :| Expects(g, n, m, c, p) && IsTerminal(p.target) && PositionLabel(p) == w;
        assert Open(g, p) && Offers(g, p, w);
      }
    }
  }
}
