/** The combinator interpreter of pylexotron: matchers, parse contexts and the matching loop.

    `Match` is the interpreter itself. Python recurses without bound through rule references and
    through the rounds of a repeat; the model spends one unit of fuel on each of those two, and
    answers `NoFuel` when the run needs more. `Derives` is an independent, declarative reading of
    the same rule table. GrammarSemantics.dfy proves the two equal, Termination.dfy says exactly
    when some fuel is enough, and Completion.dfy describes the completions collected on the way.
 */
module Pylexotron {
  import opened Common

  datatype Token = Token(kind: string, text: string)

  /** text_match/word_match, case_match/case_word_match and regex_rule. */
  datatype Terminal = Text(lit: string) | CaseText(lit: string) | Regex(pattern: string)

  datatype Matcher =
    | Leaf(term: Terminal)
    | TypeOf(kind: string, sub: Terminal)
    | Choice(branches: seq<Matcher>)
    | OneOrNone(arg: Matcher)
    | Repeat(arg: Matcher)
    | Ref(name: string)
    | Series(pieces: seq<Matcher>)
    | NamedSymbol(sym: string, arg: Matcher)
    | NamedCollector(sym: string, arg: Matcher)

  /** What a named symbol or a named collector has matched. */
  datatype Binding = Symbol(name: string, toks: seq<Token>) | Collected(name: string, toks: seq<Token>)

  /** A parse context. `bindings` lists all that was bound, oldest first; the dictionary of the source
      has the last symbol of each name, and the collected ones of each name together. No matcher
      reads the bindings, but completers do. */
  datatype Context = Context(matched: seq<Token>, remainder: seq<Token>, production: string, bindings: seq<Binding>)

  datatype Completion = Word(text: string) | Hint(production: string)

  /** None stands for a completer that raised. */
  datatype CompleterResult = Raised | Offered(words: set<Completion>)

  datatype RuleSet = RuleSet(
    rules: map<string, Matcher>,
    regex: (string, string) -> bool,
    completers: map<(string, string), Context -> CompleterResult>)

  datatype Outcome =
    | Found(ctxts: seq<Context>, offered: set<Completion>)
    | Undefined(name: string)
    | NoFuel

  predicate Accepts(g: RuleSet, t: Terminal, tok: Token) {
    match t
    case Text(lit) => Lower(lit) == Lower(tok.text)
    case CaseText(lit) => lit == tok.text
    case Regex(pattern) => g.regex(pattern, tok.text)
  }

  /** What a terminal offers when the input ends in front of it. */
  function Label(t: Terminal, production: string): Completion {
    match t
    case Text(lit) => Word(lit)
    case CaseText(lit) => Word(lit)
    case Regex(_) => Hint(production)
  }

  /** The context after `n` more tokens. */
  function WithMatch(c: Context, n: nat): Context
    requires n <= |c.remainder|
  {
    Context(c.matched + c.remainder[..n], c.remainder[n..], c.production, c.bindings)
  }

  function Renamed(cs: seq<Context>, production: string): (r: seq<Context>)
    ensures |r| == |cs|
    ensures forall i :: 0 <= i < |cs| ==> r[i] == cs[i].(production := production)
  {
    if cs == [] then [] else [cs[0].(production := production)] + Renamed(cs[1..], production)
  }

  predicate IsNamed(m: Matcher) {
    m.NamedSymbol? || m.NamedCollector?
  }

  /** What the named matcher `m` binds to these tokens. */
  function BindingOf(m: Matcher, toks: seq<Token>): Binding
    requires IsNamed(m)
  {
    if m.NamedSymbol? then Symbol(m.sym, toks) else Collected(m.sym, toks)
  }

  /** A context found by the named matcher `m`, which began with `before` tokens matched, with its binding. */
  function WithBinding(m: Matcher, before: nat, d: Context): Context
    requires IsNamed(m)
  {
    d.(bindings := d.bindings + [BindingOf(m, if before <= |d.matched| then d.matched[before..] else [])])
  }

  function AllBound(m: Matcher, before: nat, cs: seq<Context>): (r: seq<Context>)
    requires IsNamed(m)
    ensures |r| == |cs|
    ensures forall i :: 0 <= i < |cs| ==> r[i] == WithBinding(m, before, cs[i])
  {
    if cs == [] then [] else [WithBinding(m, before, cs[0])] + AllBound(m, before, cs[1..])
  }

  function RegisteredCompletion(g: RuleSet, sym: string, c: Context, collect: bool): CompleterResult {
    if c.remainder != [] || !collect || (c.production, sym) !in g.completers then Raised
    else g.completers[(c.production, sym)](c)
  }

  function MatchTerminal(hit: bool, expected: Completion, c: Context, collect: bool): Outcome
    requires hit ==> c.remainder != []
  {
    if c.remainder != [] then Found(if hit then [WithMatch(c, 1)] else [], {})
    else Found([], if collect then {expected} else {})
  }

  /** A named matcher: it binds what is matched, and a registered completer, when it answers,
      replaces what is offered underneath. */
  function MatchNamed(g: RuleSet, m: Matcher, c: Context, collect: bool, inner: Outcome): Outcome
    requires IsNamed(m)
  {
    if !inner.Found? then inner
    else
      var found := AllBound(m, |c.matched|, inner.ctxts);
      match RegisteredCompletion(g, m.sym, c, collect)
      case Raised => Found(found, inner.offered)
      case Offered(words) => Found(found, words)
  }

  function Match(g: RuleSet, fuel: nat, m: Matcher, c: Context, collect: bool): Outcome
    decreases fuel, m, 0, 0
  {
    match m
    case Leaf(t) =>
      MatchTerminal(c.remainder != [] && Accepts(g, t, c.remainder[0]), Label(t, c.production), c, collect)
    case TypeOf(kind, sub) =>
      MatchTerminal(c.remainder != [] && c.remainder[0].kind == kind, Label(sub, c.production), c, collect)
    case Choice(branches) => MatchChoice(g, fuel, branches, c, collect)
    case OneOrNone(arg) =>
      var r := Match(g, fuel, arg, c, collect);
      if r.Found? then Found([c] + r.ctxts, r.offered) else r
    case Repeat(arg) => MatchRepeat(g, fuel, arg, [c], collect)
    case Ref(name) =>
      if fuel == 0 then NoFuel
      else if name !in g.rules then Undefined(name)
      else
        var r := Match(g, fuel - 1, g.rules[name], c.(production := name), collect);
        if r.Found? then Found(Renamed(r.ctxts, c.production), r.offered) else r
    case Series(pieces) => MatchSeries(g, fuel, pieces, [c], collect)
    case NamedSymbol(_, arg) => MatchNamed(g, m, c, collect, Match(g, fuel, arg, c, collect))
    case NamedCollector(_, arg) => MatchNamed(g, m, c, collect, Match(g, fuel, arg, c, collect))
  }

  /** The inner loop shared by repeat and rule_series: match `m` from every context in turn. */
  function MatchEach(g: RuleSet, fuel: nat, m: Matcher, cs: seq<Context>, collect: bool): Outcome
    decreases fuel, m, 1, |cs|
  {
    if cs == [] then Found([], {})
    else
      var r := Match(g, fuel, m, cs[0], collect);
      if !r.Found? then r
      else
        var rest := MatchEach(g, fuel, m, cs[1..], collect);
        if !rest.Found? then rest else Found(r.ctxts + rest.ctxts, r.offered + rest.offered)
  }

  function MatchChoice(g: RuleSet, fuel: nat, ms: seq<Matcher>, c: Context, collect: bool): Outcome
    decreases fuel, ms, 0, 0
  {
    if ms == [] then Found([], {})
    else
      var r := Match(g, fuel, ms[0], c, collect);
      if !r.Found? then r
      else
        var rest := MatchChoice(g, fuel, ms[1..], c, collect);
        if !rest.Found? then rest else Found(r.ctxts + rest.ctxts, r.offered + rest.offered)
  }

  function MatchSeries(g: RuleSet, fuel: nat, ms: seq<Matcher>, cs: seq<Context>, collect: bool): Outcome
    decreases fuel, ms, 0, 0
  {
    if ms == [] then Found(cs, {})
    else
      var r := MatchEach(g, fuel, ms[0], cs, collect);
      if !r.Found? || r.ctxts == [] then r
      else
        var rest := MatchSeries(g, fuel, ms[1..], r.ctxts, collect);
        if !rest.Found? then rest else Found(rest.ctxts, r.offered + rest.offered)
  }

  /** The rounds of repeat from the frontier `cs`; the frontier itself is part of what is found. */
  function MatchRepeat(g: RuleSet, fuel: nat, m: Matcher, cs: seq<Context>, collect: bool): Outcome
    decreases fuel, m, 2, 0
  {
    var r := MatchEach(g, fuel, m, cs, collect);
    if !r.Found? then r
    else if r.ctxts == [] then Found(cs, r.offered)
    else if fuel == 0 then NoFuel
    else
      var rest := MatchRepeat(g, fuel - 1, m, r.ctxts, collect);
      if !rest.Found? then rest else Found(cs + rest.ctxts, r.offered + rest.offered)
  }

  /** The declarative reading: `m` derives exactly the tokens `toks`, by a derivation whose nesting
      of rule references and repeat rounds is at most `n`. */
  ghost predicate Derives(g: RuleSet, n: nat, m: Matcher, toks: seq<Token>)
    decreases n, m, 0
  {
    match m
    case Leaf(t) => |toks| == 1 && Accepts(g, t, toks[0])
    case TypeOf(kind, _) => |toks| == 1 && toks[0].kind == kind
    case Choice(branches) => exists i :: 0 <= i < |branches| && Derives(g, n, branches[i], toks)
    case OneOrNone(arg) => toks == [] || Derives(g, n, arg, toks)
    case Repeat(arg) => DerivesStar(g, n, arg, toks)
    case Ref(name) => n > 0 && name in g.rules && Derives(g, n - 1, g.rules[name], toks)
    case Series(pieces) => DerivesSeq(g, n, pieces, toks)
    case NamedSymbol(_, arg) => Derives(g, n, arg, toks)
    case NamedCollector(_, arg) => Derives(g, n, arg, toks)
  }

  ghost predicate DerivesSeq(g: RuleSet, n: nat, ms: seq<Matcher>, toks: seq<Token>)
    decreases n, ms, 0
  {
    if ms == [] then toks == []
    else exists k :: 0 <= k <= |toks| && Derives(g, n, ms[0], toks[..k]) && DerivesSeq(g, n, ms[1..], toks[k..])
  }

  ghost predicate DerivesStar(g: RuleSet, n: nat, m: Matcher, toks: seq<Token>)
    decreases n, m, 1
  {
    || toks == []
    || (n > 0 && exists k :: 0 <= k <= |toks| && Derives(g, n, m, toks[..k]) && DerivesStar(g, n - 1, m, toks[k..]))
  }

  ghost predicate Derivable(g: RuleSet, m: Matcher, toks: seq<Token>) {
    exists n: nat :: Derives(g, n, m, toks)
  }

  /** The same with bindings: `m` derives `toks` and binds `bs` on the way. */
  ghost predicate Binds(g: RuleSet, n: nat, m: Matcher, toks: seq<Token>, bs: seq<Binding>)
    decreases n, m, 0
  {
    match m
    case Leaf(t) => |toks| == 1 && Accepts(g, t, toks[0]) && bs == []
    case TypeOf(kind, _) => |toks| == 1 && toks[0].kind == kind && bs == []
    case Choice(branches) => exists i :: 0 <= i < |branches| && Binds(g, n, branches[i], toks, bs)
    case OneOrNone(arg) => (toks == [] && bs == []) || Binds(g, n, arg, toks, bs)
    case Repeat(arg) => BindsStar(g, n, arg, toks, bs)
    case Ref(name) => n > 0 && name in g.rules && Binds(g, n - 1, g.rules[name], toks, bs)
    case Series(pieces) => BindsSeq(g, n, pieces, toks, bs)
    case NamedSymbol(sym, arg) =>
      bs != [] && bs[|bs| - 1] == Symbol(sym, toks) && Binds(g, n, arg, toks, bs[..|bs| - 1])
    case NamedCollector(sym, arg) =>
      bs != [] && bs[|bs| - 1] == Collected(sym, toks) && Binds(g, n, arg, toks, bs[..|bs| - 1])
  }

  ghost predicate BindsSeq(g: RuleSet, n: nat, ms: seq<Matcher>, toks: seq<Token>, bs: seq<Binding>)
    decreases n, ms, 0
  {
    if ms == [] then toks == [] && bs == []
    else
      exists k, j ::
        && 0 <= k <= |toks| && 0 <= j <= |bs|
        && Binds(g, n, ms[0], toks[..k], bs[..j]) && BindsSeq(g, n, ms[1..], toks[k..], bs[j..])
  }

  ghost predicate BindsStar(g: RuleSet, n: nat, m: Matcher, toks: seq<Token>, bs: seq<Binding>)
    decreases n, m, 1
  {
    || (toks == [] && bs == [])
    || (n > 0 && exists k, j ::
          && 0 <= k <= |toks| && 0 <= j <= |bs|
          && Binds(g, n, m, toks[..k], bs[..j]) && BindsStar(g, n - 1, m, toks[k..], bs[j..]))
  }
}
