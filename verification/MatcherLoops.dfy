/** The matchers as the source writes them, with lists grown in loops; they compute `Match`. */
module MatcherLoops {
  import opened Pylexotron

  /** Putting an outcome already collected in front of the outcome of the remaining work. */
  function Prepend(ctxts: seq<Context>, offered: set<Completion>, rest: Outcome): Outcome {
    if rest.Found? then Found(ctxts + rest.ctxts, offered + rest.offered) else rest
  }

  lemma PrependTwice(a: seq<Context>, s: set<Completion>, b: seq<Context>, t: set<Completion>, rest: Outcome)
    ensures Prepend(a, s, Prepend(b, t, rest)) == Prepend(a + b, s + t, rest)
  {
    if rest.Found? { assert a + (b + rest.ctxts) == a + b + rest.ctxts
        && s + (t + rest.offered) == s + t + rest.offered; }
  }

  lemma EachStep(g: RuleSet, fuel: nat, m: Matcher, cs: seq<Context>, i: nat, collect: bool)
    requires i < |cs|
    ensures
      var one := Match(g, fuel, m, cs[i], collect);
      MatchEach(g, fuel, m, cs[i..], collect) ==
        if one.Found? then Prepend(one.ctxts, one.offered, MatchEach(g, fuel, m, cs[i + 1..], collect)) else one
  {
    assert cs[i..][0] == cs[i] && cs[i..][1..] == cs[i + 1..];
  }

  lemma ChoiceStep(g: RuleSet, fuel: nat, ms: seq<Matcher>, i: nat, c: Context, collect: bool)
    requires i < |ms|
    ensures
      var one := Match(g, fuel, ms[i], c, collect);
      MatchChoice(g, fuel, ms[i..], c, collect) ==
        if one.Found? then Prepend(one.ctxts, one.offered, MatchChoice(g, fuel, ms[i + 1..], c, collect)) else one
  {
    assert ms[i..][0] == ms[i] && ms[i..][1..] == ms[i + 1..];
  }

  lemma RepeatStep(g: RuleSet, fuel: nat, m: Matcher, cs: seq<Context>, collect: bool)
    ensures
      var next := MatchEach(g, fuel, m, cs, collect);
      MatchRepeat(g, fuel, m, cs, collect) ==
        if !next.Found? then next
        else if next.ctxts == [] then Found(cs, next.offered)
        else if fuel == 0 then NoFuel
        else Prepend(cs, next.offered, MatchRepeat(g, fuel - 1, m, next.ctxts, collect))
  {
  }

  method RunMatch(g: RuleSet, fuel: nat, m: Matcher, c: Context, collect: bool) returns (r: Outcome)
    ensures r == Match(g, fuel, m, c, collect)
    decreases fuel, m, 0
  {
    match m {
      case Leaf(_) => r := Match(g, fuel, m, c, collect);
      case TypeOf(_, _) => r := Match(g, fuel, m, c, collect);
      case Choice(branches) => r := RunChoice(g, fuel, branches, c, collect);
      case OneOrNone(arg) =>
        r := RunMatch(g, fuel, arg, c, collect);
        if r.Found? { r := Found([c] + r.ctxts, r.offered); }
      case Repeat(arg) => r := RunRepeat(g, fuel, arg, c, collect);
      case Ref(name) =>
        if fuel == 0 { return NoFuel; }
        if name !in g.rules { return Undefined(name); }
        r := RunMatch(g, fuel - 1, g.rules[name], c.(production := name), collect);
        if r.Found? { r := Found(Renamed(r.ctxts, c.production), r.offered); }
      case Series(pieces) => r := RunSeries(g, fuel, pieces, c, collect);
      case NamedSymbol(_, arg) =>
        r := RunMatch(g, fuel, arg, c, collect);
        r := MatchNamed(g, m, c, collect, r);
      case NamedCollector(_, arg) =>
        r := RunMatch(g, fuel, arg, c, collect);
        r := MatchNamed(g, m, c, collect, r);
    }
  }

  /** The loop shared by repeat and rule_series: the results of every context, one after the other. */
  method RunEach(g: RuleSet, fuel: nat, m: Matcher, cs: seq<Context>, collect: bool) returns (r: Outcome)
    ensures r == MatchEach(g, fuel, m, cs, collect)
    decreases fuel, m, 1
  {
    var ctxts: seq<Context>, offered: set<Completion> := [], {};
    for i := 0 to |cs|
      invariant MatchEach(g, fuel, m, cs, collect) == Prepend(ctxts, offered, MatchEach(g, fuel, m, cs[i..], collect))
    {
      var one := RunMatch(g, fuel, m, cs[i], collect);
      EachStep(g, fuel, m, cs, i, collect);
      if !one.Found? { return one; }
      PrependTwice(ctxts, offered, one.ctxts, one.offered, MatchEach(g, fuel, m, cs[i + 1..], collect));
      ctxts, offered := ctxts + one.ctxts, offered + one.offered;
    }
    return Found(ctxts, offered);
  }

  method RunChoice(g: RuleSet, fuel: nat, ms: seq<Matcher>, c: Context, collect: bool) returns (r: Outcome)
    ensures r == MatchChoice(g, fuel, ms, c, collect)
    decreases fuel, ms, 0
  {
    var found: seq<Context>, offered: set<Completion> := [], {};
    for i := 0 to |ms|
      invariant MatchChoice(g, fuel, ms, c, collect) ==
          Prepend(found, offered, MatchChoice(g, fuel, ms[i..], c, collect))
    {
      var one := RunMatch(g, fuel, ms[i], c, collect);
      ChoiceStep(g, fuel, ms, i, c, collect);
      if !one.Found? { return one; }
      PrependTwice(found, offered, one.ctxts, one.offered, MatchChoice(g, fuel, ms[i + 1..], c, collect));
      found, offered := found + one.ctxts, offered + one.offered;
    }
    return Found(found, offered);
  }

  method RunSeries(g: RuleSet, fuel: nat, ms: seq<Matcher>, c: Context, collect: bool) returns (r: Outcome)
    ensures r == MatchSeries(g, fuel, ms, [c], collect)
    decreases fuel, ms, 0
  {
    var ctxts, offered: set<Completion> := [c], {};
    for i := 0 to |ms|
      invariant MatchSeries(g, fuel, ms, [c], collect) ==
          Prepend([], offered, MatchSeries(g, fuel, ms[i..], ctxts, collect))
    {
      var next := RunEach(g, fuel, ms[i], ctxts, collect);
      assert ms[i..][0] == ms[i] && ms[i..][1..] == ms[i + 1..];
      if !next.Found? { return next; }
      offered := offered + next.offered;
      if next.ctxts == [] { return Found([], offered); }
      ctxts := next.ctxts;
    }
    return Found(ctxts, offered);
  }

  method RunRepeat(g: RuleSet, fuel: nat, m: Matcher, c: Context, collect: bool) returns (r: Outcome)
    ensures r == MatchRepeat(g, fuel, m, [c], collect)
    decreases fuel, m, 2
  {
    var found, ctxts, offered: set<Completion>, left: nat := [c], [c], {}, fuel;
    ghost var before: seq<Context> := [];
    while true
      invariant left <= fuel && found == before + ctxts
      invariant MatchRepeat(g, fuel, m, [c], collect) ==
          Prepend(before, offered, MatchRepeat(g, left, m, ctxts, collect))
      decreases left
    {
      var next := RunEach(g, left, m, ctxts, collect);
      RepeatStep(g, left, m, ctxts, collect);
      if !next.Found? { return next; }
      if next.ctxts == [] { return Found(found, offered + next.offered); }
      if left == 0 { return NoFuel; }
      PrependTwice(before, offered, ctxts, next.offered, MatchRepeat(g, left - 1, m, next.ctxts, collect));
      before := found;
      found, ctxts, offered, left := found + next.ctxts, next.ctxts, offered + next.offered, left - 1;
    }
  }
}
