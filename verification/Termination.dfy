/** When matching ends: exactly for the rule tables without left recursion and without a repeat
    over something that can match nothing. */
module Termination {
  import opened Common
  import opened Pylexotron
  import opened GrammarSemantics

  // ---- more fuel never changes an answer ----

  lemma {:induction false} MatchStable(g: RuleSet, fuel: nat, m: Matcher, c: Context, collect: bool)
    requires !Match(g, fuel, m, c, collect).NoFuel?
    ensures Match(g, fuel + 1, m, c, collect) == Match(g, fuel, m, c, collect)
    decreases fuel, m, 0, 0
  {
    match m
    case Leaf(_) =>
    case TypeOf(_, _) =>
    case Choice(branches) => ChoiceStable(g, fuel, branches, c, collect);
    case OneOrNone(arg) => MatchStable(g, fuel, arg, c, collect);
    case Repeat(arg) => RepeatStable(g, fuel, arg, [c], collect);
    case Ref(name) =>
      if name in g.rules { MatchStable(g, fuel - 1, g.rules[name], c.(production := name), collect); }
    case Series(pieces) => SeriesStable(g, fuel, pieces, [c], collect);
    case NamedSymbol(_, arg) => MatchStable(g, fuel, arg, c, collect);
    case NamedCollector(_, arg) => MatchStable(g, fuel, arg, c, collect);
  }

  lemma {:induction false} EachStable(g: RuleSet, fuel: nat, m: Matcher, cs: seq<Context>, collect: bool)
    requires !MatchEach(g, fuel, m, cs, collect).NoFuel?
    ensures MatchEach(g, fuel + 1, m, cs, collect) == MatchEach(g, fuel, m, cs, collect)
    decreases fuel, m, 1, |cs|
  {
    if cs != [] {
      MatchStable(g, fuel, m, cs[0], collect);
      if Match(g, fuel, m, cs[0], collect).Found? { EachStable(g, fuel, m, cs[1..], collect); }
    }
  }

  lemma {:induction false} ChoiceStable(g: RuleSet, fuel: nat, ms: seq<Matcher>, c: Context, collect: bool)
    requires !MatchChoice(g, fuel, ms, c, collect).NoFuel?
    ensures MatchChoice(g, fuel + 1, ms, c, collect) == MatchChoice(g, fuel, ms, c, collect)
    decreases fuel, ms, 0, 0
  {
    if ms != [] {
      MatchStable(g, fuel, ms[0], c, collect);
      if Match(g, fuel, ms[0], c, collect).Found? { ChoiceStable(g, fuel, ms[1..], c, collect); }
    }
  }

  lemma {:induction false} SeriesStable(g: RuleSet, fuel: nat, ms: seq<Matcher>, cs: seq<Context>, collect: bool)
    requires !MatchSeries(g, fuel, ms, cs, collect).NoFuel?
    ensures MatchSeries(g, fuel + 1, ms, cs, collect) == MatchSeries(g, fuel, ms, cs, collect)
    decreases fuel, ms, 0, 0
  {
    if ms != [] {
      EachStable(g, fuel, ms[0], cs, collect);
      var r := MatchEach(g, fuel, ms[0], cs, collect);
      if r.Found? && r.ctxts != [] { SeriesStable(g, fuel, ms[1..], r.ctxts, collect); }
    }
  }

  lemma {:induction false} RepeatStable(g: RuleSet, fuel: nat, m: Matcher, cs: seq<Context>, collect: bool)
    requires !MatchRepeat(g, fuel, m, cs, collect).NoFuel?
    ensures MatchRepeat(g, fuel + 1, m, cs, collect) == MatchRepeat(g, fuel, m, cs, collect)
    decreases fuel, m, 2, 0
  {
    EachStable(g, fuel, m, cs, collect);
    var r := MatchEach(g, fuel, m, cs, collect);
    if r.Found? && r.ctxts != [] { RepeatStable(g, fuel - 1, m, r.ctxts, collect); }
  }

  /** An answer obtained with some fuel is the answer with any more fuel. */
  lemma {:induction false} FuelIrrelevant(g: RuleSet, fuel: nat, more: nat, m: Matcher, c: Context, collect: bool)
    requires fuel <= more && !Match(g, fuel, m, c, collect).NoFuel?
    ensures Match(g, more, m, c, collect) == Match(g, fuel, m, c, collect)
    decreases more - fuel
  {
    if fuel < more {
      MatchStable(g, fuel, m, c, collect);
      FuelIrrelevant(g, fuel + 1, more, m, c, collect);
    }
  }

  lemma {:induction false} EachFuelIrrelevant(g: RuleSet, fuel: nat, more: nat, m: Matcher, cs: seq<Context>,
      collect: bool)
    requires fuel <= more && !MatchEach(g, fuel, m, cs, collect).NoFuel?
    ensures MatchEach(g, more, m, cs, collect) == MatchEach(g, fuel, m, cs, collect)
    decreases more - fuel
  {
    if fuel < more {
      EachStable(g, fuel, m, cs, collect);
      EachFuelIrrelevant(g, fuel + 1, more, m, cs, collect);
    }
  }

  lemma {:induction false} ChoiceFuelIrrelevant(g: RuleSet, fuel: nat, more: nat, ms: seq<Matcher>, c: Context,
      collect: bool)
    requires fuel <= more && !MatchChoice(g, fuel, ms, c, collect).NoFuel?
    ensures MatchChoice(g, more, ms, c, collect) == MatchChoice(g, fuel, ms, c, collect)
    decreases more - fuel
  {
    if fuel < more {
      ChoiceStable(g, fuel, ms, c, collect);
      ChoiceFuelIrrelevant(g, fuel + 1, more, ms, c, collect);
    }
  }

  lemma {:induction false} SeriesFuelIrrelevant(g: RuleSet, fuel: nat, more: nat, ms: seq<Matcher>, cs: seq<Context>,
      collect: bool)
    requires fuel <= more && !MatchSeries(g, fuel, ms, cs, collect).NoFuel?
    ensures MatchSeries(g, more, ms, cs, collect) == MatchSeries(g, fuel, ms, cs, collect)
    decreases more - fuel
  {
    if fuel < more {
      SeriesStable(g, fuel, ms, cs, collect);
      SeriesFuelIrrelevant(g, fuel + 1, more, ms, cs, collect);
    }
  }

  lemma {:induction false} RepeatFuelIrrelevant(g: RuleSet, fuel: nat, more: nat, m: Matcher, cs: seq<Context>,
      collect: bool)
    requires fuel <= more && !MatchRepeat(g, fuel, m, cs, collect).NoFuel?
    ensures MatchRepeat(g, more, m, cs, collect) == MatchRepeat(g, fuel, m, cs, collect)
    decreases more - fuel
  {
    if fuel < more {
      RepeatStable(g, fuel, m, cs, collect);
      RepeatFuelIrrelevant(g, fuel + 1, more, m, cs, collect);
    }
  }

  // ---- left recursion ----

  ghost predicate Nullable(g: RuleSet, m: Matcher) {
    Derivable(g, m, [])
  }

  /** `m` may consult the rule `name` before any token is consumed. */
  ghost predicate LeftRef(g: RuleSet, m: Matcher, name: string)
    decreases m, 0
  {
    match m
    case Leaf(_) => false
    case TypeOf(_, _) => false
    case Choice(branches) => exists i :: 0 <= i < |branches| && LeftRef(g, branches[i], name)
    case OneOrNone(arg) => LeftRef(g, arg, name)
    case Repeat(arg) => LeftRef(g, arg, name)
    case Ref(other) => name == other
    case Series(pieces) => LeftRefSeq(g, pieces, name)
    case NamedSymbol(_, arg) => LeftRef(g, arg, name)
    case NamedCollector(_, arg) => LeftRef(g, arg, name)
  }

  ghost predicate LeftRefSeq(g: RuleSet, ms: seq<Matcher>, name: string)
    decreases ms, 0
  {
    ms != [] && (LeftRef(g, ms[0], name) || (Nullable(g, ms[0]) && LeftRefSeq(g, ms[1..], name)))
  }

  ghost predicate LeftCalls(g: RuleSet, a: string, b: string) {
    a in g.rules && LeftRef(g, g.rules[a], b)
  }

  ghost predicate Chain(g: RuleSet, path: seq<string>) {
    && (forall i :: 0 <= i < |path| ==> path[i] in g.rules)
    && (forall i :: 0 < i < |path| ==> LeftCalls(g, path[i - 1], path[i]))
  }

  ghost predicate Cycle(g: RuleSet, path: seq<string>) {
    |path| >= 2 && Chain(g, path) && path[0] == path[|path| - 1]
  }

  ghost predicate LeftRecursive(g: RuleSet) {
    exists path :: Cycle(g, path)
  }

  /** `x` occurs in `m`. */
  ghost predicate Occurs(x: Matcher, m: Matcher)
    decreases m
  {
    || x == m
    || match m
       case Choice(branches) => exists i :: 0 <= i < |branches| && Occurs(x, branches[i])
       case OneOrNone(arg) => Occurs(x, arg)
       case Repeat(arg) => Occurs(x, arg)
       case Series(pieces) => exists i :: 0 <= i < |pieces| && Occurs(x, pieces[i])
       case NamedSymbol(_, arg) => Occurs(x, arg)
       case NamedCollector(_, arg) => Occurs(x, arg)
       case _ => false
  }

  ghost predicate NoNullableRepeat(g: RuleSet, m: Matcher) {
    forall x :: Occurs(Repeat(x), m) ==> !Nullable(g, x)
  }

  ghost predicate WellFormed(g: RuleSet) {
    && !LeftRecursive(g)
    && forall name :: name in g.rules ==> NoNullableRepeat(g, g.rules[name])
  }

  // ---- well-formed tables: matching ends ----

  /** Every rule that `m` consults first is a left call of the last rule on the path. */
  ghost predicate LeftOk(g: RuleSet, path: seq<string>, m: Matcher) {
    path != [] ==> forall a :: LeftRef(g, m, a) ==> LeftCalls(g, path[|path| - 1], a)
  }

  ghost predicate LeftOkSeq(g: RuleSet, path: seq<string>, ms: seq<Matcher>) {
    path != [] ==> forall a :: LeftRefSeq(g, ms, a) ==> LeftCalls(g, path[|path| - 1], a)
  }

  ghost predicate Prepared(g: RuleSet, path: seq<string>) {
    WellFormed(g) && Chain(g, path) && Distinct(path)
  }

  lemma NewOnPath(g: RuleSet, path: seq<string>, name: string)
    requires Prepared(g, path) && name in g.rules && LeftOk(g, path, Ref(name))
    ensures Prepared(g, path + [name]) && |path| + 1 <= |g.rules.Keys|
    ensures LeftOk(g, path + [name], g.rules[name])
  {
    var longer := path + [name];
    if path != [] {
      assert LeftRef(g, Ref(name), name);
      assert LeftCalls(g, path[|path| - 1], name);
    }
    assert Chain(g, longer);
    forall i | 0 <= i < |path|
      ensures path[i] != name
    {
      if path[i] == name {
        var loop := longer[i..];
        forall j | 0 < j < |loop|
          ensures LeftCalls(g, loop[j - 1], loop[j])
        {
          assert loop[j - 1] == longer[i + j - 1] && loop[j] == longer[i + j];
        }
        assert Cycle(g, loop);
      }
    }
    DistinctBound(longer, g.rules.Keys);
  }

  lemma {:induction false} MatchEnds(g: RuleSet, path: seq<string>, m: Matcher, c: Context, collect: bool)
    returns (fuel: nat)
    requires Prepared(g, path) && NoNullableRepeat(g, m) && LeftOk(g, path, m)
    ensures !Match(g, fuel, m, c, collect).NoFuel?
    decreases |c.remainder|, |g.rules.Keys| - |path|, m, 0, 0
  {
    match m
    case Leaf(_) => fuel := 0;
    case TypeOf(_, _) => fuel := 0;
    case Choice(branches) =>
      forall i | 0 <= i < |branches|
        ensures NoNullableRepeat(g, branches[i]) && LeftOk(g, path, branches[i])
      {
        assert forall x :: Occurs(Repeat(x), branches[i]) ==> Occurs(Repeat(x), m);
        assert forall a :: LeftRef(g, branches[i], a) ==> LeftRef(g, m, a);
      }
      fuel := ChoiceEnds(g, path, branches, c, collect);
    case OneOrNone(arg) =>
      assert forall a :: LeftRef(g, arg, a) ==> LeftRef(g, m, a);
      fuel := MatchEnds(g, path, arg, c, collect);
    case Repeat(arg) =>
      assert Occurs(Repeat(arg), m);
      assert forall a :: LeftRef(g, arg, a) ==> LeftRef(g, m, a);
      fuel := RepeatEnds(g, path, arg, |c.remainder|, [c], collect);
    case Ref(name) =>
      if name !in g.rules {
        fuel := 1;
      } else {
        NewOnPath(g, path, name);
        fuel := MatchEnds(g, path + [name], g.rules[name], c.(production := name), collect);
        fuel := fuel + 1;
      }
    case Series(pieces) =>
      forall i | 0 <= i < |pieces|
        ensures NoNullableRepeat(g, pieces[i])
      {
        assert forall x :: Occurs(Repeat(x), pieces[i]) ==> Occurs(Repeat(x), m);
      }
      assert forall a :: LeftRefSeq(g, pieces, a) ==> LeftRef(g, m, a);
      fuel := SeriesEnds(g, path, pieces, |c.remainder|, [c], collect);
    case NamedSymbol(_, arg) =>
      assert forall a :: LeftRef(g, arg, a) ==> LeftRef(g, m, a);
      fuel := MatchEnds(g, path, arg, c, collect);
    case NamedCollector(_, arg) =>
      assert forall a :: LeftRef(g, arg, a) ==> LeftRef(g, m, a);
      fuel := MatchEnds(g, path, arg, c, collect);
  }

  lemma {:induction false} ChoiceEnds(g: RuleSet, path: seq<string>, ms: seq<Matcher>, c: Context, collect: bool)
    returns (fuel: nat)
    requires Prepared(g, path)
    requires forall i :: 0 <= i < |ms| ==> NoNullableRepeat(g, ms[i]) && LeftOk(g, path, ms[i])
    ensures !MatchChoice(g, fuel, ms, c, collect).NoFuel?
    decreases |c.remainder|, |g.rules.Keys| - |path|, ms, 0, 0
  {
    fuel := 0;
    if ms != [] {
      var f0 := MatchEnds(g, path, ms[0], c, collect);
      var f1 := ChoiceEnds(g, path, ms[1..], c, collect);
      fuel := f0 + f1;
      FuelIrrelevant(g, f0, fuel, ms[0], c, collect);
      ChoiceFuelIrrelevant(g, f1, fuel, ms[1..], c, collect);
    }
  }

  /** Contexts with at most `n` tokens left; those with exactly `n` are still on the left path. */
  lemma {:induction false} EachEnds(g: RuleSet, path: seq<string>, m: Matcher, n: nat, cs: seq<Context>,
      collect: bool) returns (fuel: nat)
    requires Prepared(g, path) && NoNullableRepeat(g, m)
    requires forall c :: c in cs ==> |c.remainder| < n || (|c.remainder| == n && LeftOk(g, path, m))
    ensures !MatchEach(g, fuel, m, cs, collect).NoFuel?
    decreases n, |g.rules.Keys| - |path|, m, 1, |cs|
  {
    fuel := 0;
    if cs != [] {
      var f0: nat;
      assert cs[0] in cs;
      if |cs[0].remainder| < n {
        f0 := MatchEnds(g, [], m, cs[0], collect);
      } else {
        f0 := MatchEnds(g, path, m, cs[0], collect);
      }
      var f1 := EachEnds(g, path, m, n, cs[1..], collect);
      fuel := f0 + f1;
      FuelIrrelevant(g, f0, fuel, m, cs[0], collect);
      EachFuelIrrelevant(g, f1, fuel, m, cs[1..], collect);
    }
  }

  lemma {:induction false} SeriesEnds(g: RuleSet, path: seq<string>, ms: seq<Matcher>, n: nat, cs: seq<Context>,
      collect: bool) returns (fuel: nat)
    requires Prepared(g, path)
    requires forall i :: 0 <= i < |ms| ==> NoNullableRepeat(g, ms[i])
    requires forall c :: c in cs ==> |c.remainder| < n || (|c.remainder| == n && LeftOkSeq(g, path, ms))
    ensures !MatchSeries(g, fuel, ms, cs, collect).NoFuel?
    decreases n, |g.rules.Keys| - |path|, ms, 0, 0
  {
    fuel := 0;
    if ms != [] {
      assert forall a :: LeftRef(g, ms[0], a) ==> LeftRefSeq(g, ms, a);
      var f0 := EachEnds(g, path, ms[0], n, cs, collect);
      fuel := f0;
      var r := MatchEach(g, f0, ms[0], cs, collect);
      if r.Found? && r.ctxts != [] {
        forall d | d in r.ctxts
          ensures |d.remainder| < n || (|d.remainder| == n && LeftOkSeq(g, path, ms[1..]))
        {
          var c := EachSource(g, f0, ms[0], cs, collect, d);
          MatchSound(g, f0, ms[0], c, collect, d);
          BindsDerives(g, f0, ms[0], Consumed(c, d), Bound(c, d));
          if |d.remainder| == n {
            assert Consumed(c, d) == [];
            assert forall a :: LeftRefSeq(g, ms[1..], a) ==> LeftRefSeq(g, ms, a);
          }
        }
        var f1 := SeriesEnds(g, path, ms[1..], n, r.ctxts, collect);
        fuel := f0 + f1;
        EachFuelIrrelevant(g, f0, fuel, ms[0], cs, collect);
        SeriesFuelIrrelevant(g, f1, fuel, ms[1..], r.ctxts, collect);
      }
    }
  }

  lemma {:induction false} RepeatEnds(g: RuleSet, path: seq<string>, m: Matcher, n: nat, cs: seq<Context>,
      collect: bool) returns (fuel: nat)
    requires Prepared(g, path) && NoNullableRepeat(g, m) && !Nullable(g, m)
    requires forall c :: c in cs ==> |c.remainder| < n || (|c.remainder| == n && LeftOk(g, path, m))
    ensures !MatchRepeat(g, fuel, m, cs, collect).NoFuel?
    decreases n, |g.rules.Keys| - |path|, m, 2, 0
  {
    var f0 := EachEnds(g, path, m, n, cs, collect);
    fuel := f0;
    var r := MatchEach(g, f0, m, cs, collect);
    if r.Found? && r.ctxts != [] {
      forall d | d in r.ctxts
        ensures |d.remainder| < n
      {
        var c := EachSource(g, f0, m, cs, collect, d);
        MatchSound(g, f0, m, c, collect, d);
        BindsDerives(g, f0, m, Consumed(c, d), Bound(c, d));
        assert |Consumed(c, d)| == |c.remainder| - |d.remainder|;
        assert Consumed(c, d) != [];
      }
      assert r.ctxts[0] in r.ctxts;
      var f1 := RepeatEnds(g, [], m, n - 1, r.ctxts, collect);
      fuel := f0 + f1 + 1;
      EachFuelIrrelevant(g, f0, fuel, m, cs, collect);
      RepeatFuelIrrelevant(g, f1, fuel - 1, m, r.ctxts, collect);
    }
  }

  // ---- closed tables never raise ----

  ghost predicate ClosedIn(g: RuleSet, m: Matcher) {
    forall name :: Occurs(Ref(name), m) ==> name in g.rules
  }

  ghost predicate Closed(g: RuleSet) {
    forall name :: name in g.rules ==> ClosedIn(g, g.rules[name])
  }

  lemma {:induction false} MatchDefined(g: RuleSet, fuel: nat, m: Matcher, c: Context, collect: bool)
    requires Closed(g) && ClosedIn(g, m)
    ensures !Match(g, fuel, m, c, collect).Undefined?
    decreases fuel, m, 0, 0
  {
    match m
    case Leaf(_) =>
    case TypeOf(_, _) =>
    case Choice(branches) =>
      forall i | 0 <= i < |branches|
        ensures ClosedIn(g, branches[i])
      {
        assert forall name :: Occurs(Ref(name), branches[i]) ==> Occurs(Ref(name), m);
      }
      ChoiceDefined(g, fuel, branches, c, collect);
    case OneOrNone(arg) => MatchDefined(g, fuel, arg, c, collect);
    case Repeat(arg) => RepeatDefined(g, fuel, arg, [c], collect);
    case Ref(name) =>
      assert Occurs(Ref(name), m);
      if fuel > 0 { MatchDefined(g, fuel - 1, g.rules[name], c.(production := name), collect); }
    case Series(pieces) =>
      forall i | 0 <= i < |pieces|
        ensures ClosedIn(g, pieces[i])
      {
        assert forall name :: Occurs(Ref(name), pieces[i]) ==> Occurs(Ref(name), m);
      }
      SeriesDefined(g, fuel, pieces, [c], collect);
    case NamedSymbol(_, arg) => MatchDefined(g, fuel, arg, c, collect);
    case NamedCollector(_, arg) => MatchDefined(g, fuel, arg, c, collect);
  }

  lemma {:induction false} EachDefined(g: RuleSet, fuel: nat, m: Matcher, cs: seq<Context>, collect: bool)
    requires Closed(g) && ClosedIn(g, m)
    ensures !MatchEach(g, fuel, m, cs, collect).Undefined?
    decreases fuel, m, 1, |cs|
  {
    if cs != [] {
      MatchDefined(g, fuel, m, cs[0], collect);
      EachDefined(g, fuel, m, cs[1..], collect);
    }
  }

  lemma {:induction false} ChoiceDefined(g: RuleSet, fuel: nat, ms: seq<Matcher>, c: Context, collect: bool)
    requires Closed(g) && forall i :: 0 <= i < |ms| ==> ClosedIn(g, ms[i])
    ensures !MatchChoice(g, fuel, ms, c, collect).Undefined?
    decreases fuel, ms, 0, 0
  {
    if ms != [] {
      MatchDefined(g, fuel, ms[0], c, collect);
      ChoiceDefined(g, fuel, ms[1..], c, collect);
    }
  }

  lemma {:induction false} SeriesDefined(g: RuleSet, fuel: nat, ms: seq<Matcher>, cs: seq<Context>, collect: bool)
    requires Closed(g) && forall i :: 0 <= i < |ms| ==> ClosedIn(g, ms[i])
    ensures !MatchSeries(g, fuel, ms, cs, collect).Undefined?
    decreases fuel, ms, 0, 0
  {
    if ms != [] {
      EachDefined(g, fuel, ms[0], cs, collect);
      var r := MatchEach(g, fuel, ms[0], cs, collect);
      if r.Found? { SeriesDefined(g, fuel, ms[1..], r.ctxts, collect); }
    }
  }

  lemma {:induction false} RepeatDefined(g: RuleSet, fuel: nat, m: Matcher, cs: seq<Context>, collect: bool)
    requires Closed(g) && ClosedIn(g, m)
    ensures !MatchRepeat(g, fuel, m, cs, collect).Undefined?
    decreases fuel, m, 2, 0
  {
    EachDefined(g, fuel, m, cs, collect);
    var r := MatchEach(g, fuel, m, cs, collect);
    if r.Found? && fuel > 0 { RepeatDefined(g, fuel - 1, m, r.ctxts, collect); }
  }

  // ---- the other tables: some matcher never returns ----

  /** The rule does not return on the input of `c`, whatever is bound. */
  ghost predicate Stuck(g: RuleSet, fuel: nat, name: string, c: Context, collect: bool) {
    forall bs :: !Match(g, fuel, Ref(name), c.(bindings := bs), collect).Found?
  }

  /** A matcher that consults first a rule which does not return does not return. */
  lemma {:induction false} LeftRefNever(g: RuleSet, fuel: nat, m: Matcher, c: Context, collect: bool, name: string)
    requires LeftRef(g, m, name) && Stuck(g, fuel, name, c, collect)
    ensures !Match(g, fuel, m, c, collect).Found?
    decreases m, 0
  {
    match m
    case Choice(branches) =>
      var i :| 0 <= i < |branches| && LeftRef(g, branches[i], name);
      ChoiceNever(g, fuel, branches, i, c, collect, name);
    case OneOrNone(arg) => LeftRefNever(g, fuel, arg, c, collect, name);
    case Repeat(arg) =>
      LeftRefNever(g, fuel, arg, c, collect, name);
      assert !MatchEach(g, fuel, arg, [c], collect).Found?;
    case Ref(_) => assert c.(bindings := c.bindings) == c;
    case Series(pieces) => SeriesNever(g, fuel, pieces, [c], c, collect, name);
    case NamedSymbol(_, arg) => LeftRefNever(g, fuel, arg, c, collect, name);
    case NamedCollector(_, arg) => LeftRefNever(g, fuel, arg, c, collect, name);
  }

  lemma {:induction false} ChoiceNever(g: RuleSet, fuel: nat, ms: seq<Matcher>, i: nat, c: Context, collect: bool,
      name: string)
    requires i < |ms| && LeftRef(g, ms[i], name) && Stuck(g, fuel, name, c, collect)
    ensures !MatchChoice(g, fuel, ms, c, collect).Found?
    decreases ms, 0
  {
    if i == 0 {
      LeftRefNever(g, fuel, ms[0], c, collect, name);
    } else {
      ChoiceNever(g, fuel, ms[1..], i - 1, c, collect, name);
    }
  }

  lemma {:induction false} SeriesNever(g: RuleSet, fuel: nat, ms: seq<Matcher>, cs: seq<Context>, c: Context,
      collect: bool, name: string)
    requires c in cs && LeftRefSeq(g, ms, name) && Stuck(g, fuel, name, c, collect)
    ensures !MatchSeries(g, fuel, ms, cs, collect).Found?
    decreases ms, 0
  {
    if MatchEach(g, fuel, ms[0], cs, collect).Found? {
      EachIncludes(g, fuel, ms[0], cs, collect, c);
      if LeftRef(g, ms[0], name) {
        LeftRefNever(g, fuel, ms[0], c, collect, name);
      } else {
        var d := StaysPut(g, fuel, ms[0], c, collect);
        assert forall bs :: d.(bindings := bs) == c.(bindings := bs);
        SeriesNever(g, fuel, ms[1..], MatchEach(g, fuel, ms[0], cs, collect).ctxts, d, collect, name);
      }
    }
  }

  /** Something nullable gets nowhere, though it may bind names. */
  lemma StaysPut(g: RuleSet, fuel: nat, m: Matcher, c: Context, collect: bool) returns (d: Context)
    requires Nullable(g, m) && Match(g, fuel, m, c, collect).Found?
    ensures d in Match(g, fuel, m, c, collect).ctxts && d == c.(bindings := d.bindings)
  {
    var n: nat :| Derives(g, n, m, []);
    var bs := DerivesBinds(g, n, m, []);
    assert c.remainder[..0] == [] && c.matched + [] == c.matched;
    MatchComplete(g, fuel, n, m, c, collect, 0, bs);
    d := Reached(c, 0, bs);
  }

  /** A rule on a left-recursive cycle returns on no input, whatever the fuel. */
  lemma {:induction false} CycleNever(g: RuleSet, path: seq<string>, i: nat, fuel: nat, c: Context, collect: bool)
    requires Cycle(g, path) && i < |path|
    ensures !Match(g, fuel, Ref(path[i]), c, collect).Found?
    decreases fuel
  {
    if fuel > 0 {
      var j := if i == |path| - 1 then 0 else i;
      var body := c.(production := path[j]);
      forall bs
        ensures !Match(g, fuel - 1, Ref(path[j + 1]), body.(bindings := bs), collect).Found?
      {
        CycleNever(g, path, j + 1, fuel - 1, body.(bindings := bs), collect);
      }
      assert LeftCalls(g, path[j + 1 - 1], path[j + 1]);
      LeftRefNever(g, fuel - 1, g.rules[path[j]], body, collect, path[j + 1]);
    }
  }

  /** Nor does a repeat over something nullable. */
  lemma {:induction false} RepeatNever(g: RuleSet, fuel: nat, m: Matcher, cs: seq<Context>, c: Context, collect: bool)
    requires Nullable(g, m) && c in cs
    ensures !MatchRepeat(g, fuel, m, cs, collect).Found?
    decreases fuel
  {
    if MatchRepeat(g, fuel, m, cs, collect).Found? {
      RepeatRound(g, fuel, m, cs, collect);
      EachIncludes(g, fuel, m, cs, collect, c);
      var d := StaysPut(g, fuel, m, c, collect);
      RepeatNever(g, fuel - 1, m, MatchEach(g, fuel, m, cs, collect).ctxts, d, collect);
    }
  }

  lemma {:induction false} OccursTrans(x: Matcher, y: Matcher, m: Matcher)
    requires Occurs(x, y) && Occurs(y, m)
    ensures Occurs(x, m)
    decreases m
  {
    if y != m {
      match m
      case Choice(branches) =>
        var i :| 0 <= i < |branches| && Occurs(y, branches[i]);
        OccursTrans(x, y, branches[i]);
      case OneOrNone(arg) => OccursTrans(x, y, arg);
      case Repeat(arg) => OccursTrans(x, y, arg);
      case Series(pieces) =>
        var i :| 0 <= i < |pieces| && Occurs(y, pieces[i]);
        OccursTrans(x, y, pieces[i]);
      case NamedSymbol(_, arg) => OccursTrans(x, y, arg);
      case NamedCollector(_, arg) => OccursTrans(x, y, arg);
    }
  }

  /** A matcher of the table: a part of some rule, or a reference to one. */
  ghost predicate PartOf(g: RuleSet, m: Matcher) {
    || (m.Ref? && m.name in g.rules)
    || exists name :: name in g.rules && Occurs(m, g.rules[name])
  }

  ghost predicate Returns(g: RuleSet, m: Matcher, c: Context, collect: bool) {
    exists fuel: nat :: Match(g, fuel, m, c, collect).Found?
  }

  lemma WellFormedReturns(g: RuleSet, m: Matcher, c: Context, collect: bool)
    requires Closed(g) && WellFormed(g) && PartOf(g, m)
    ensures Returns(g, m, c, collect)
  {
    if name :| name in g.rules && Occurs(m, g.rules[name]) {
      forall x | Occurs(x, m)
        ensures Occurs(x, g.rules[name])
      {
        OccursTrans(x, m, g.rules[name]);
      }
    }
    assert Prepared(g, []);
    var fuel := MatchEnds(g, [], m, c, collect);
    MatchDefined(g, fuel, m, c, collect);
    assert Match(g, fuel, m, c, collect).Found?;
  }

  /** For a closed table, every matcher returns on every input exactly when no rule is left
      recursive and no repeat body can match nothing. */
  lemma TerminationExact(g: RuleSet)
    requires Closed(g)
    ensures WellFormed(g) <==> forall m, c, collect :: PartOf(g, m) ==> Returns(g, m, c, collect)
  {
    if WellFormed(g) {
      forall m, c, collect | PartOf(g, m)
        ensures Returns(g, m, c, collect)
      {
        WellFormedReturns(g, m, c, collect);
      }
    } else if path :| Cycle(g, path) {
      var m, c := Ref(path[0]), Context([], [], "", []);
      forall fuel: nat
        ensures !Match(g, fuel, m, c, false).Found?
      {
        CycleNever(g, path, 0, fuel, c, false);
      }
      assert PartOf(g, m) && !Returns(g, m, c, false);
    } else {
      var name, x :| name in g.rules && Occurs(Repeat(x), g.rules[name]) && Nullable(g, x);
      var m, c := Repeat(x), Context([], [], "", []);
      forall fuel: nat
        ensures !Match(g, fuel, m, c, false).Found?
      {
        RepeatNever(g, fuel, x, [c], c, false);
      }
      assert PartOf(g, m) && !Returns(g, m, c, false);
    }
  }

  /** So for a closed, well-formed table the recursive-descent search is a decision procedure:
      it returns, and reports a whole match exactly on the derivable token lists. */
  lemma WholeMatchDecides(g: RuleSet, start: string, toks: seq<Token>) returns (fuel: nat)
    requires Closed(g) && WellFormed(g) && start in g.rules
    ensures Match(g, fuel, g.rules[start], InitialContext(start, toks), false).Found?
    ensures FirstWhole(Match(g, fuel, g.rules[start], InitialContext(start, toks), false).ctxts).WholeMatch? <==>
            Derivable(g, g.rules[start], toks)
  {
    var c := InitialContext(start, toks);
    assert Occurs(g.rules[start], g.rules[start]);
    WellFormedReturns(g, g.rules[start], c, false);
    fuel :| Match(g, fuel, g.rules[start], c, false).Found?;
    WholeMatchIffDerivable(g, fuel, start, toks);
  }
}
