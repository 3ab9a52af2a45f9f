/** The interpreter finds exactly the derivable prefixes. */
module GrammarSemantics {
  import opened Common
  import opened Pylexotron

  // ---- terminals ----

  /** A word matches in any ASCII case, a case-sensitive word only as it is, a pattern as the
      pattern says. */
  lemma TerminalAccepts(g: RuleSet, t: Terminal, tok: Token)
    ensures t.Text? ==> (Accepts(g, t, tok) <==> SameLetters(t.lit, tok.text))
    ensures t.CaseText? ==> (Accepts(g, t, tok) <==> t.lit == tok.text)
    ensures t.Regex? ==> (Accepts(g, t, tok) <==> g.regex(t.pattern, tok.text))
  {
    if t.Text? { LowerAlike(t.lit, tok.text); }
  }

  // ---- contexts ----

  /** `d` continues `c`: same input, same production, at least as far and with more bound. */
  ghost predicate Continues(c: Context, d: Context) {
    && |d.remainder| <= |c.remainder| && c.bindings <= d.bindings
    && d == Reached(c, |c.remainder| - |d.remainder|, d.bindings[|c.bindings|..])
  }

  /** The context after `k` more tokens, with `bs` bound on the way. */
  function Reached(c: Context, k: nat, bs: seq<Binding>): Context
    requires k <= |c.remainder|
  {
    WithMatch(c, k).(bindings := c.bindings + bs)
  }

  ghost function Consumed(c: Context, d: Context): seq<Token>
    requires Continues(c, d)
  {
    c.remainder[..|c.remainder| - |d.remainder|]
  }

  ghost function Bound(c: Context, d: Context): seq<Binding>
    requires Continues(c, d)
  {
    d.bindings[|c.bindings|..]
  }

  lemma ReachedContinues(c: Context, k: nat, bs: seq<Binding>)
    requires k <= |c.remainder|
    ensures Continues(c, Reached(c, k, bs))
    ensures Consumed(c, Reached(c, k, bs)) == c.remainder[..k] && Bound(c, Reached(c, k, bs)) == bs
  {
    assert (c.bindings + bs)[|c.bindings|..] == bs;
  }

  lemma SelfContinues(c: Context)
    ensures Continues(c, c) && Consumed(c, c) == [] && Bound(c, c) == []
  {
    assert c.matched + [] == c.matched && c.bindings + [] == c.bindings;
  }

  lemma CutTwice<T>(s: seq<T>, i: nat, j: nat)
    requires i + j <= |s|
    ensures s[..i] + s[i..][..j] == s[..i + j] && s[i..][j..] == s[i + j..]
  {
  }

  lemma ReachedTwice(c: Context, i: nat, a: seq<Binding>, j: nat, b: seq<Binding>)
    requires i + j <= |c.remainder|
    ensures Reached(Reached(c, i, a), j, b) == Reached(c, i + j, a + b)
  {
    CutTwice(c.remainder, i, j);
    Regroup(c.matched, c.remainder[..i], c.remainder[i..][..j]);
    Regroup(c.bindings, a, b);
  }

  lemma ContinuesTrans(c: Context, d: Context, e: Context)
    requires Continues(c, d) && Continues(d, e)
    ensures Continues(c, e)
    ensures Consumed(c, e) == Consumed(c, d) + Consumed(d, e)
    ensures Bound(c, e) == Bound(c, d) + Bound(d, e)
  {
    var i, j := |c.remainder| - |d.remainder|, |d.remainder| - |e.remainder|;
    ReachedTwice(c, i, Bound(c, d), j, Bound(d, e));
    ReachedContinues(c, i + j, Bound(c, d) + Bound(d, e));
    CutTwice(c.remainder, i, j);
  }

  /** Whatever one of its contexts finds or offers, MatchEach finds and offers. */
  lemma {:induction false} EachIncludes(g: RuleSet, fuel: nat, m: Matcher, cs: seq<Context>, collect: bool, c: Context)
    requires MatchEach(g, fuel, m, cs, collect).Found? && c in cs
    ensures Match(g, fuel, m, c, collect).Found?
    ensures forall d :: d in Match(g, fuel, m, c, collect).ctxts ==> d in MatchEach(g, fuel, m, cs, collect).ctxts
    ensures Match(g, fuel, m, c, collect).offered <= MatchEach(g, fuel, m, cs, collect).offered
  {
    if c != cs[0] { EachIncludes(g, fuel, m, cs[1..], collect, c); }
  }

  /** And whatever MatchEach finds or offers comes from one of its contexts. */
  lemma {:induction false} EachSource(g: RuleSet, fuel: nat, m: Matcher, cs: seq<Context>, collect: bool, d: Context)
    returns (c: Context)
    requires MatchEach(g, fuel, m, cs, collect).Found? && d in MatchEach(g, fuel, m, cs, collect).ctxts
    ensures c in cs && Match(g, fuel, m, c, collect).Found? && d in Match(g, fuel, m, c, collect).ctxts
  {
    if d in Match(g, fuel, m, cs[0], collect).ctxts {
      c := cs[0];
    } else {
      c := EachSource(g, fuel, m, cs[1..], collect, d);
    }
  }

  lemma {:induction false} EachOfferSource(
    g: RuleSet, fuel: nat, m: Matcher, cs: seq<Context>, collect: bool, w: Completion) returns (c: Context)
    requires MatchEach(g, fuel, m, cs, collect).Found? && w in MatchEach(g, fuel, m, cs, collect).offered
    ensures c in cs && Match(g, fuel, m, c, collect).Found? && w in Match(g, fuel, m, c, collect).offered
  {
    if w in Match(g, fuel, m, cs[0], collect).offered {
      c := cs[0];
    } else {
      c := EachOfferSource(g, fuel, m, cs[1..], collect, w);
    }
  }

  lemma SplitAt<T>(a: seq<T>, b: seq<T>)
    ensures (a + b)[..|a|] == a && (a + b)[|a|..] == b
  {
  }

  /** One derivation after another, as a list of matchers or as rounds of a repeat. */
  lemma BindsCons(g: RuleSet, n: nat, ms: seq<Matcher>, toks: seq<Token>, bs: seq<Binding>, rest: seq<Token>,
      more: seq<Binding>)
    requires ms != [] && Binds(g, n, ms[0], toks, bs) && BindsSeq(g, n, ms[1..], rest, more)
    ensures BindsSeq(g, n, ms, toks + rest, bs + more)
  {
    SplitAt(toks, rest);
    SplitAt(bs, more);
  }

  lemma BindsRound(g: RuleSet, n: nat, m: Matcher, toks: seq<Token>, bs: seq<Binding>, rest: seq<Token>,
      more: seq<Binding>)
    requires n > 0 && Binds(g, n, m, toks, bs) && BindsStar(g, n - 1, m, rest, more)
    ensures BindsStar(g, n, m, toks + rest, bs + more)
  {
    SplitAt(toks, rest);
    SplitAt(bs, more);
  }

  // ---- soundness ----

  /** Every context found continues the given one, restores its production name, has consumed tokens
      that the grammar derives, and binds what that derivation binds. */
  lemma {:induction false} MatchSound(g: RuleSet, fuel: nat, m: Matcher, c: Context, collect: bool, d: Context)
    requires Match(g, fuel, m, c, collect).Found? && d in Match(g, fuel, m, c, collect).ctxts
    ensures Continues(c, d) && Binds(g, fuel, m, Consumed(c, d), Bound(c, d))
    decreases fuel, m, 0
  {
    match m
    case Leaf(_) => TerminalSound(c, d);
    case TypeOf(_, _) => TerminalSound(c, d);
    case Choice(branches) => var i := ChoiceSound(g, fuel, branches, c, collect, d);
    case OneOrNone(arg) =>
      if d == c {
        SelfContinues(c);
      } else {
        MatchSound(g, fuel, arg, c, collect, d);
      }
    case Repeat(arg) => RepeatFromOne(g, fuel, arg, c, collect, d);
    case Ref(name) => RefSound(g, fuel - 1, name, c, collect, d);
    case Series(pieces) => SeriesFromOne(g, fuel, pieces, c, collect, d);
    case NamedSymbol(_, _) => NamedSound(g, fuel, m, c, collect, d);
    case NamedCollector(_, _) => NamedSound(g, fuel, m, c, collect, d);
  }

  lemma TerminalSound(c: Context, d: Context)
    requires c.remainder != [] && d == WithMatch(c, 1)
    ensures Continues(c, d) && Consumed(c, d) == [c.remainder[0]] && Bound(c, d) == []
  {
    assert c.bindings + [] == c.bindings;
    ReachedContinues(c, 1, []);
  }

  lemma RenamedContinues(c: Context, e: Context, name: string)
    requires Continues(c.(production := name), e)
    ensures
      var body, d := c.(production := name), e.(production := c.production);
      Continues(c, d) && Consumed(c, d) == Consumed(body, e) && Bound(c, d) == Bound(body, e)
  {
  }

  lemma {:induction false} RefSound(g: RuleSet, fuel: nat, name: string, c: Context, collect: bool, d: Context)
    requires name in g.rules && Match(g, fuel, g.rules[name], c.(production := name), collect).Found?
    requires d in Renamed(Match(g, fuel, g.rules[name], c.(production := name), collect).ctxts, c.production)
    ensures Continues(c, d) && Binds(g, fuel, g.rules[name], Consumed(c, d), Bound(c, d))
    decreases fuel
  {
    var body := c.(production := name);
    var found := Match(g, fuel, g.rules[name], body, collect).ctxts;
    var i :| 0 <= i < |found| && d == found[i].(production := c.production);
    MatchSound(g, fuel, g.rules[name], body, collect, found[i]);
    RenamedContinues(c, found[i], name);
  }

  lemma NamedContext(m: Matcher, c: Context, e: Context)
    requires IsNamed(m) && Continues(c, e)
    ensures
      var d := WithBinding(m, |c.matched|, e);
      && Continues(c, d) && Consumed(c, d) == Consumed(c, e)
      && Bound(c, d) == Bound(c, e) + [BindingOf(m, Consumed(c, e))]
  {
    var k, b := |c.remainder| - |e.remainder|, BindingOf(m, Consumed(c, e));
    assert e.matched[|c.matched|..] == c.remainder[..k];
    Regroup(c.bindings, Bound(c, e), [b]);
    ReachedContinues(c, k, Bound(c, e) + [b]);
  }

  lemma BoundFrom(m: Matcher, before: nat, cs: seq<Context>, d: Context) returns (e: Context)
    requires IsNamed(m) && d in AllBound(m, before, cs)
    ensures e in cs && d == WithBinding(m, before, e)
  {
    var i :| 0 <= i < |cs| && d == AllBound(m, before, cs)[i];
    e := cs[i];
  }

  lemma BoundIn(m: Matcher, before: nat, cs: seq<Context>, e: Context)
    requires IsNamed(m) && e in cs
    ensures WithBinding(m, before, e) in AllBound(m, before, cs)
  {
    var i :| 0 <= i < |cs| && cs[i] == e;
    assert AllBound(m, before, cs)[i] == WithBinding(m, before, e);
  }

  /** A named matcher binds what it matches after all that is bound inside. */
  lemma BindsNamed(g: RuleSet, n: nat, m: Matcher, toks: seq<Token>, bs: seq<Binding>)
    requires IsNamed(m) && Binds(g, n, m.arg, toks, bs)
    ensures Binds(g, n, m, toks, bs + [BindingOf(m, toks)])
  {
    assert (bs + [BindingOf(m, toks)])[..|bs|] == bs;
  }

  lemma {:induction false} NamedSound(g: RuleSet, fuel: nat, m: Matcher, c: Context, collect: bool, d: Context)
    requires IsNamed(m)
    requires Match(g, fuel, m, c, collect).Found? && d in Match(g, fuel, m, c, collect).ctxts
    ensures Continues(c, d) && Binds(g, fuel, m, Consumed(c, d), Bound(c, d))
    decreases fuel, m.arg, 1
  {
    var e := BoundFrom(m, |c.matched|, Match(g, fuel, m.arg, c, collect).ctxts, d);
    MatchSound(g, fuel, m.arg, c, collect, e);
    NamedContext(m, c, e);
    BindsNamed(g, fuel, m, Consumed(c, e), Bound(c, e));
  }

  lemma {:induction false} RepeatFromOne(g: RuleSet, fuel: nat, m: Matcher, c: Context, collect: bool, d: Context)
    requires MatchRepeat(g, fuel, m, [c], collect).Found? && d in MatchRepeat(g, fuel, m, [c], collect).ctxts
    ensures Continues(c, d) && BindsStar(g, fuel, m, Consumed(c, d), Bound(c, d))
    decreases fuel, m, 2
  {
    var b := RepeatSound(g, fuel, m, [c], collect, d);
  }

  lemma {:induction false} SeriesFromOne(g: RuleSet, fuel: nat, ms: seq<Matcher>, c: Context, collect: bool, d: Context)
    requires MatchSeries(g, fuel, ms, [c], collect).Found? && d in MatchSeries(g, fuel, ms, [c], collect).ctxts
    ensures Continues(c, d) && BindsSeq(g, fuel, ms, Consumed(c, d), Bound(c, d))
    decreases fuel, ms, 1
  {
    var b := SeriesSound(g, fuel, ms, [c], collect, d);
  }

  lemma {:induction false} ChoiceSound(g: RuleSet, fuel: nat, ms: seq<Matcher>, c: Context, collect: bool, d: Context)
    returns (i: nat)
    requires MatchChoice(g, fuel, ms, c, collect).Found? && d in MatchChoice(g, fuel, ms, c, collect).ctxts
    ensures Continues(c, d) && i < |ms| && Binds(g, fuel, ms[i], Consumed(c, d), Bound(c, d))
    decreases fuel, ms, 0
  {
    if d in Match(g, fuel, ms[0], c, collect).ctxts {
      MatchSound(g, fuel, ms[0], c, collect, d);
      i := 0;
    } else {
      i := ChoiceSound(g, fuel, ms[1..], c, collect, d);
      i := i + 1;
    }
  }

  lemma {:induction false} SeriesSound(
    g: RuleSet, fuel: nat, ms: seq<Matcher>, cs: seq<Context>, collect: bool, d: Context) returns (c: Context)
    requires MatchSeries(g, fuel, ms, cs, collect).Found? && d in MatchSeries(g, fuel, ms, cs, collect).ctxts
    ensures c in cs && Continues(c, d) && BindsSeq(g, fuel, ms, Consumed(c, d), Bound(c, d))
    decreases fuel, ms, 0
  {
    if ms == [] {
      c := d;
      SelfContinues(c);
    } else {
      var mid := SeriesSound(g, fuel, ms[1..], MatchEach(g, fuel, ms[0], cs, collect).ctxts, collect, d);
      c := EachSource(g, fuel, ms[0], cs, collect, mid);
      MatchSound(g, fuel, ms[0], c, collect, mid);
      ContinuesTrans(c, mid, d);
      BindsCons(g, fuel, ms, Consumed(c, mid), Bound(c, mid), Consumed(mid, d), Bound(mid, d));
    }
  }

  lemma {:induction false} RepeatSound(
    g: RuleSet, fuel: nat, m: Matcher, cs: seq<Context>, collect: bool, d: Context) returns (c: Context)
    requires MatchRepeat(g, fuel, m, cs, collect).Found? && d in MatchRepeat(g, fuel, m, cs, collect).ctxts
    ensures c in cs && Continues(c, d) && BindsStar(g, fuel, m, Consumed(c, d), Bound(c, d))
    decreases fuel, m, 1
  {
    if d in cs {
      c := d;
      SelfContinues(c);
    } else {
      var mid := RepeatSound(g, fuel - 1, m, MatchEach(g, fuel, m, cs, collect).ctxts, collect, d);
      c := EachSource(g, fuel, m, cs, collect, mid);
      MatchSound(g, fuel, m, c, collect, mid);
      ContinuesTrans(c, mid, d);
      BindsRound(g, fuel, m, Consumed(c, mid), Bound(c, mid), Consumed(mid, d), Bound(mid, d));
    }
  }

  // ---- completeness ----

  /** When the run ends, whatever derivation there is of a prefix of the input, of any height, the
      context after that prefix with the bindings of that derivation was found. */
  lemma {:induction false} MatchComplete(
    g: RuleSet, fuel: nat, n: nat, m: Matcher, c: Context, collect: bool, k: nat, bs: seq<Binding>)
    requires Match(g, fuel, m, c, collect).Found?
    requires k <= |c.remainder| && Binds(g, n, m, c.remainder[..k], bs)
    ensures Reached(c, k, bs) in Match(g, fuel, m, c, collect).ctxts
    decreases n, m, 0
  {
    match m
    case Leaf(_) => TerminalComplete(c, k);
    case TypeOf(_, _) => TerminalComplete(c, k);
    case Choice(branches) =>
      var i :| 0 <= i < |branches| && Binds(g, n, branches[i], c.remainder[..k], bs);
      ChoiceComplete(g, fuel, n, branches, i, c, collect, k, bs);
    case OneOrNone(arg) =>
      if k == 0 && bs == [] {
        NothingReached(c);
      } else {
        MatchComplete(g, fuel, n, arg, c, collect, k, bs);
      }
    case Repeat(arg) => RepeatComplete(g, fuel, n, arg, [c], c, collect, k, bs);
    case Ref(name) =>
      var body := c.(production := name);
      MatchComplete(g, fuel - 1, n - 1, g.rules[name], body, collect, k, bs);
      assert Reached(c, k, bs) == Reached(body, k, bs).(production := c.production);
    case Series(pieces) => SeriesComplete(g, fuel, n, pieces, [c], c, collect, k, bs);
    case NamedSymbol(_, _) => NamedComplete(g, fuel, n, m, c, collect, k, bs);
    case NamedCollector(_, _) => NamedComplete(g, fuel, n, m, c, collect, k, bs);
  }

  lemma TerminalComplete(c: Context, k: nat)
    requires k <= |c.remainder| && |c.remainder[..k]| == 1
    ensures k == 1 && c.remainder[..k][0] == c.remainder[0] && Reached(c, k, []) == WithMatch(c, 1)
  {
    assert c.bindings + [] == c.bindings;
  }

  lemma NothingReached(c: Context)
    ensures Reached(c, 0, []) == c
  {
    assert c.matched + c.remainder[..0] == c.matched && c.bindings + [] == c.bindings;
  }

  lemma BoundReached(m: Matcher, c: Context, k: nat, bs: seq<Binding>)
    requires IsNamed(m) && k <= |c.remainder|
    ensures WithBinding(m, |c.matched|, Reached(c, k, bs)) == Reached(c, k, bs + [BindingOf(m, c.remainder[..k])])
  {
    assert Reached(c, k, bs).matched[|c.matched|..] == c.remainder[..k];
    Regroup(c.bindings, bs, [BindingOf(m, c.remainder[..k])]);
  }

  lemma {:induction false} NamedComplete(
    g: RuleSet, fuel: nat, n: nat, m: Matcher, c: Context, collect: bool, k: nat, bs: seq<Binding>)
    requires IsNamed(m)
    requires Match(g, fuel, m, c, collect).Found?
    requires k <= |c.remainder| && Binds(g, n, m, c.remainder[..k], bs)
    ensures Reached(c, k, bs) in Match(g, fuel, m, c, collect).ctxts
    decreases n, m.arg, 1
  {
    var init := bs[..|bs| - 1];
    assert bs == init + [BindingOf(m, c.remainder[..k])];
    MatchComplete(g, fuel, n, m.arg, c, collect, k, init);
    BoundReached(m, c, k, init);
    BoundIn(m, |c.matched|, Match(g, fuel, m.arg, c, collect).ctxts, Reached(c, k, init));
  }

  lemma {:induction false} ChoiceComplete(
    g: RuleSet, fuel: nat, n: nat, ms: seq<Matcher>, i: nat, c: Context, collect: bool, k: nat, bs: seq<Binding>)
    requires MatchChoice(g, fuel, ms, c, collect).Found?
    requires i < |ms| && k <= |c.remainder| && Binds(g, n, ms[i], c.remainder[..k], bs)
    ensures Reached(c, k, bs) in MatchChoice(g, fuel, ms, c, collect).ctxts
    decreases n, ms, 0
  {
    if i == 0 {
      MatchComplete(g, fuel, n, ms[0], c, collect, k, bs);
    } else {
      ChoiceComplete(g, fuel, n, ms[1..], i - 1, c, collect, k, bs);
    }
  }

  /** A prefix of the input and its bindings cut in two. */
  lemma SplitInput(c: Context, k: nat, i: nat, bs: seq<Binding>, j: nat)
    requires i <= k <= |c.remainder| && j <= |bs|
    ensures c.remainder[..k][..i] == c.remainder[..i]
    ensures c.remainder[..k][i..] == Reached(c, i, bs[..j]).remainder[..k - i]
    ensures Reached(Reached(c, i, bs[..j]), k - i, bs[j..]) == Reached(c, k, bs)
  {
    ReachedTwice(c, i, bs[..j], k - i, bs[j..]);
    assert bs[..j] + bs[j..] == bs;
  }

  lemma {:induction false} SeriesComplete(
    g: RuleSet, fuel: nat, n: nat, ms: seq<Matcher>, cs: seq<Context>, c: Context, collect: bool, k: nat,
        bs: seq<Binding>)
    requires MatchSeries(g, fuel, ms, cs, collect).Found? && c in cs
    requires k <= |c.remainder| && BindsSeq(g, n, ms, c.remainder[..k], bs)
    ensures Reached(c, k, bs) in MatchSeries(g, fuel, ms, cs, collect).ctxts
    decreases n, ms, 0
  {
    if ms == [] {
      NothingReached(c);
    } else {
      var toks := c.remainder[..k];
      var i, j :| 0 <= i <= |toks| && 0 <= j <= |bs| && Binds(g, n, ms[0], toks[..i], bs[..j])
          && BindsSeq(g, n, ms[1..], toks[i..], bs[j..]);
      SplitInput(c, k, i, bs, j);
      var d, next := Reached(c, i, bs[..j]), MatchEach(g, fuel, ms[0], cs, collect);
      assert d in next.ctxts by {
        EachIncludes(g, fuel, ms[0], cs, collect, c);
        MatchComplete(g, fuel, n, ms[0], c, collect, i, bs[..j]);
      }
      SeriesComplete(g, fuel, n, ms[1..], next.ctxts, d, collect, k - i, bs[j..]);
    }
  }

  /** One round of repeat: its frontier is found, and so is all that the later rounds find. */
  lemma RepeatRound(g: RuleSet, fuel: nat, m: Matcher, cs: seq<Context>, collect: bool)
    requires MatchRepeat(g, fuel, m, cs, collect).Found?
    ensures MatchEach(g, fuel, m, cs, collect).Found?
    ensures forall c :: c in cs ==> c in MatchRepeat(g, fuel, m, cs, collect).ctxts
    ensures MatchEach(g, fuel, m, cs, collect).offered <= MatchRepeat(g, fuel, m, cs, collect).offered
    ensures
      var next := MatchEach(g, fuel, m, cs, collect).ctxts;
      next != [] ==>
        && fuel > 0
        && MatchRepeat(g, fuel - 1, m, next, collect).Found?
        && (forall d :: d in MatchRepeat(g, fuel - 1, m, next, collect).ctxts ==>
            d in MatchRepeat(g, fuel, m, cs, collect).ctxts)
        && MatchRepeat(g, fuel - 1, m, next, collect).offered <= MatchRepeat(g, fuel, m, cs, collect).offered
  {
  }

  lemma FrontierMatches(g: RuleSet, fuel: nat, m: Matcher, cs: seq<Context>, collect: bool, c: Context)
    requires MatchRepeat(g, fuel, m, cs, collect).Found? && c in cs
    ensures MatchEach(g, fuel, m, cs, collect).Found? && Match(g, fuel, m, c, collect).Found?
  {
    RepeatRound(g, fuel, m, cs, collect);
    EachIncludes(g, fuel, m, cs, collect, c);
  }

  /** What one round finds from a context of the frontier, the next round starts from. */
  lemma NextRound(g: RuleSet, fuel: nat, m: Matcher, cs: seq<Context>, collect: bool, c: Context, d: Context)
    requires MatchRepeat(g, fuel, m, cs, collect).Found? && c in cs
    requires Match(g, fuel, m, c, collect).Found? && d in Match(g, fuel, m, c, collect).ctxts
    ensures
      var next := MatchEach(g, fuel, m, cs, collect).ctxts;
      d in next && fuel > 0 && MatchRepeat(g, fuel - 1, m, next, collect).Found?
  {
    RepeatRound(g, fuel, m, cs, collect);
    EachIncludes(g, fuel, m, cs, collect, c);
  }

  /** And what it finds is found. */
  lemma LaterFound(g: RuleSet, fuel: nat, m: Matcher, cs: seq<Context>, collect: bool, d: Context)
    requires MatchRepeat(g, fuel, m, cs, collect).Found? && fuel > 0
    requires
      var next := MatchEach(g, fuel, m, cs, collect).ctxts;
      && next != [] && MatchRepeat(g, fuel - 1, m, next, collect).Found?
      && d in MatchRepeat(g, fuel - 1, m, next, collect).ctxts
    ensures d in MatchRepeat(g, fuel, m, cs, collect).ctxts
  {
    RepeatRound(g, fuel, m, cs, collect);
  }

  lemma {:induction false} RepeatComplete(
    g: RuleSet, fuel: nat, n: nat, m: Matcher, cs: seq<Context>, c: Context, collect: bool, k: nat, bs: seq<Binding>)
    requires MatchRepeat(g, fuel, m, cs, collect).Found? && c in cs
    requires k <= |c.remainder| && BindsStar(g, n, m, c.remainder[..k], bs)
    ensures Reached(c, k, bs) in MatchRepeat(g, fuel, m, cs, collect).ctxts
    decreases n, m, 2
  {
    if k == 0 && bs == [] {
      NothingReached(c);
      RepeatRound(g, fuel, m, cs, collect);
    } else {
      var i, j := StarSplit(g, n, m, c, k, bs);
      FrontierMatches(g, fuel, m, cs, collect, c);
      MatchComplete(g, fuel, n, m, c, collect, i, bs[..j]);
      RoundsComplete(g, fuel, n, m, cs, c, collect, Reached(c, i, bs[..j]), k - i, bs[j..]);
    }
  }

  /** One round has led to `d`, and `k` more tokens come in the later ones. */
  lemma {:induction false} RoundsComplete(
    g: RuleSet, fuel: nat, n: nat, m: Matcher, cs: seq<Context>, c: Context, collect: bool, d: Context, k: nat,
        bs: seq<Binding>)
    requires MatchRepeat(g, fuel, m, cs, collect).Found? && c in cs && n > 0
    requires Match(g, fuel, m, c, collect).Found? && d in Match(g, fuel, m, c, collect).ctxts
    requires k <= |d.remainder| && BindsStar(g, n - 1, m, d.remainder[..k], bs)
    ensures Reached(d, k, bs) in MatchRepeat(g, fuel, m, cs, collect).ctxts
    decreases n, m, 1
  {
    NextRound(g, fuel, m, cs, collect, c, d);
    RepeatComplete(g, fuel - 1, n - 1, m, MatchEach(g, fuel, m, cs, collect).ctxts, d, collect, k, bs);
    LaterFound(g, fuel, m, cs, collect, Reached(d, k, bs));
  }

  lemma StarSplit(g: RuleSet, n: nat, m: Matcher, c: Context, k: nat, bs: seq<Binding>) returns (i: nat, j: nat)
    requires k <= |c.remainder| && BindsStar(g, n, m, c.remainder[..k], bs) && (k > 0 || bs != [])
    ensures n > 0 && i <= k && j <= |bs| && Binds(g, n, m, c.remainder[..i], bs[..j])
    ensures BindsStar(g, n - 1, m, Reached(c, i, bs[..j]).remainder[..k - i], bs[j..])
    ensures Reached(Reached(c, i, bs[..j]), k - i, bs[j..]) == Reached(c, k, bs)
  {
    var toks := c.remainder[..k];
    i, j :| 0 <= i <= |toks| && 0 <= j <= |bs| && Binds(g, n, m, toks[..i], bs[..j])
        && BindsStar(g, n - 1, m, toks[i..], bs[j..]);
    SplitInput(c, k, i, bs, j);
  }

  /** `m` can take the context `c` to `d`. */
  ghost predicate Leads(g: RuleSet, n: nat, m: Matcher, c: Context, d: Context) {
    Continues(c, d) && Binds(g, n, m, Consumed(c, d), Bound(c, d))
  }

  /** Where `m` can lead, the search has been. */
  lemma LeadsFound(g: RuleSet, fuel: nat, n: nat, m: Matcher, c: Context, collect: bool, d: Context)
    requires Match(g, fuel, m, c, collect).Found? && Leads(g, n, m, c, d)
    ensures d in Match(g, fuel, m, c, collect).ctxts
  {
    var k, bs := |c.remainder| - |d.remainder|, Bound(c, d);
    assert d == Reached(c, k, bs);
    MatchComplete(g, fuel, n, m, c, collect, k, bs);
  }

  ghost predicate Bindable(g: RuleSet, m: Matcher, toks: seq<Token>, bs: seq<Binding>) {
    exists n: nat :: Binds(g, n, m, toks, bs)
  }

  /** The contexts found are exactly those after a prefix of the input that the grammar derives, with
      what the derivation binds. */
  lemma MatchExact(g: RuleSet, fuel: nat, m: Matcher, c: Context, collect: bool)
    requires Match(g, fuel, m, c, collect).Found?
    ensures forall d :: d in Match(g, fuel, m, c, collect).ctxts <==>
              Continues(c, d) && Bindable(g, m, Consumed(c, d), Bound(c, d))
  {
    forall d
      ensures d in Match(g, fuel, m, c, collect).ctxts <==>
              Continues(c, d) && Bindable(g, m, Consumed(c, d), Bound(c, d))
    {
      if d in Match(g, fuel, m, c, collect).ctxts {
        MatchSound(g, fuel, m, c, collect, d);
      } else if Continues(c, d) && Bindable(g, m, Consumed(c, d), Bound(c, d)) {
        var n: nat :| Binds(g, n, m, Consumed(c, d), Bound(c, d));
        LeadsFound(g, fuel, n, m, c, collect, d);
      }
    }
  }

  // ---- with and without bindings ----

  lemma {:induction false} BindsDerives(g: RuleSet, n: nat, m: Matcher, toks: seq<Token>, bs: seq<Binding>)
    requires Binds(g, n, m, toks, bs)
    ensures Derives(g, n, m, toks)
    decreases n, m, 0
  {
    match m
    case Leaf(_) =>
    case TypeOf(_, _) =>
    case Choice(branches) =>
      var i :| 0 <= i < |branches| && Binds(g, n, branches[i], toks, bs);
      BindsDerives(g, n, branches[i], toks, bs);
    case OneOrNone(arg) => if toks != [] || bs != [] { BindsDerives(g, n, arg, toks, bs); }
    case Repeat(arg) => BindsDerivesStar(g, n, arg, toks, bs);
    case Ref(name) => BindsDerives(g, n - 1, g.rules[name], toks, bs);
    case Series(pieces) => BindsDerivesSeq(g, n, pieces, toks, bs);
    case NamedSymbol(_, arg) => BindsDerives(g, n, arg, toks, bs[..|bs| - 1]);
    case NamedCollector(_, arg) => BindsDerives(g, n, arg, toks, bs[..|bs| - 1]);
  }

  lemma {:induction false} BindsDerivesSeq(g: RuleSet, n: nat, ms: seq<Matcher>, toks: seq<Token>, bs: seq<Binding>)
    requires BindsSeq(g, n, ms, toks, bs)
    ensures DerivesSeq(g, n, ms, toks)
    decreases n, ms, 0
  {
    if ms != [] {
      var k, j :| 0 <= k <= |toks| && 0 <= j <= |bs| && Binds(g, n, ms[0], toks[..k], bs[..j])
          && BindsSeq(g, n, ms[1..], toks[k..], bs[j..]);
      BindsDerives(g, n, ms[0], toks[..k], bs[..j]);
      BindsDerivesSeq(g, n, ms[1..], toks[k..], bs[j..]);
    }
  }

  lemma {:induction false} BindsDerivesStar(g: RuleSet, n: nat, m: Matcher, toks: seq<Token>, bs: seq<Binding>)
    requires BindsStar(g, n, m, toks, bs)
    ensures DerivesStar(g, n, m, toks)
    decreases n, m, 1
  {
    if toks != [] {
      var k, j :| 0 <= k <= |toks| && 0 <= j <= |bs| && Binds(g, n, m, toks[..k], bs[..j])
          && BindsStar(g, n - 1, m, toks[k..], bs[j..]);
      BindsDerives(g, n, m, toks[..k], bs[..j]);
      BindsDerivesStar(g, n - 1, m, toks[k..], bs[j..]);
    }
  }

  lemma {:induction false} DerivesBinds(g: RuleSet, n: nat, m: Matcher, toks: seq<Token>) returns (bs: seq<Binding>)
    requires Derives(g, n, m, toks)
    ensures Binds(g, n, m, toks, bs)
    decreases n, m, 0
  {
    match m
    case Leaf(_) => bs := [];
    case TypeOf(_, _) => bs := [];
    case Choice(branches) =>
      var i :| 0 <= i < |branches| && Derives(g, n, branches[i], toks);
      bs := DerivesBinds(g, n, branches[i], toks);
    case OneOrNone(arg) =>
      bs := [];
      if toks != [] { bs := DerivesBinds(g, n, arg, toks); }
    case Repeat(arg) => bs := DerivesBindsStar(g, n, arg, toks);
    case Ref(name) => bs := DerivesBinds(g, n - 1, g.rules[name], toks);
    case Series(pieces) => bs := DerivesBindsSeq(g, n, pieces, toks);
    case NamedSymbol(_, _) => bs := NamedBinds(g, n, m, toks);
    case NamedCollector(_, _) => bs := NamedBinds(g, n, m, toks);
  }

  lemma {:induction false} NamedBinds(g: RuleSet, n: nat, m: Matcher, toks: seq<Token>)
    returns (bs: seq<Binding>)
    requires IsNamed(m)
    requires Derives(g, n, m.arg, toks)
    ensures Binds(g, n, m, toks, bs)
    decreases n, m.arg, 1
  {
    bs := DerivesBinds(g, n, m.arg, toks);
    BindsNamed(g, n, m, toks, bs);
    bs := bs + [BindingOf(m, toks)];
  }

  lemma {:induction false} DerivesBindsSeq(g: RuleSet, n: nat, ms: seq<Matcher>, toks: seq<Token>)
    returns (bs: seq<Binding>)
    requires DerivesSeq(g, n, ms, toks)
    ensures BindsSeq(g, n, ms, toks, bs)
    decreases n, ms, 0
  {
    bs := [];
    if ms != [] {
      var k :| 0 <= k <= |toks| && Derives(g, n, ms[0], toks[..k]) && DerivesSeq(g, n, ms[1..], toks[k..]);
      var a := DerivesBinds(g, n, ms[0], toks[..k]);
      var b := DerivesBindsSeq(g, n, ms[1..], toks[k..]);
      BindsCons(g, n, ms, toks[..k], a, toks[k..], b);
      bs := a + b;
      assert toks[..k] + toks[k..] == toks;
    }
  }

  lemma {:induction false} DerivesBindsStar(g: RuleSet, n: nat, m: Matcher, toks: seq<Token>)
    returns (bs: seq<Binding>)
    requires DerivesStar(g, n, m, toks)
    ensures BindsStar(g, n, m, toks, bs)
    decreases n, m, 1
  {
    bs := [];
    if toks != [] {
      var k :| 0 <= k <= |toks| && Derives(g, n, m, toks[..k]) && DerivesStar(g, n - 1, m, toks[k..]);
      var a := DerivesBinds(g, n, m, toks[..k]);
      var b := DerivesBindsStar(g, n - 1, m, toks[k..]);
      BindsRound(g, n, m, toks[..k], a, toks[k..], b);
      bs := a + b;
      assert toks[..k] + toks[k..] == toks;
    }
  }

  /** A list is derivable exactly when it is with some bindings. */
  lemma DerivableBinds(g: RuleSet, m: Matcher, toks: seq<Token>)
    ensures Derivable(g, m, toks) <==> exists bs :: Bindable(g, m, toks, bs)
  {
    if n: nat :| Derives(g, n, m, toks) {
      var bs := DerivesBinds(g, n, m, toks);
      assert Bindable(g, m, toks, bs);
    }
    if bs :| Bindable(g, m, toks, bs) {
      var n: nat :| Binds(g, n, m, toks, bs);
      BindsDerives(g, n, m, toks, bs);
    }
  }

  // ---- whole_match ----

  function InitialContext(start: string, toks: seq<Token>): Context {
    Context([], toks, start, [])
  }

  /** The first fully consumed parse of the start symbol, if there is one. */
  datatype WholeMatch = NoMatch | WholeMatch(ctxt: Context)

  function FirstWhole(cs: seq<Context>): (r: WholeMatch)
    ensures r.NoMatch? <==> forall c :: c in cs ==> c.remainder != []
    ensures r.WholeMatch? ==>
              exists i :: 0 <= i < |cs| && r.ctxt == cs[i] && cs[i].remainder == [] && forall j :: 0 <= j < i ==>
                  cs[j].remainder != []
  {
    if cs == [] then NoMatch
    else if cs[0].remainder == [] then WholeMatch(cs[0])
    else
      var rest := FirstWhole(cs[1..]);
      assert forall i :: 0 <= i < |cs[1..]| ==> cs[1..][i] == cs[i + 1];
      rest
  }

  /** whole_match succeeds iff the rule derives the whole token list, and then it returns a context
      that has matched all of it and binds what a derivation of it binds. */
  lemma WholeMatchIffDerivable(g: RuleSet, fuel: nat, start: string, toks: seq<Token>)
    requires start in g.rules
    requires Match(g, fuel, g.rules[start], InitialContext(start, toks), false).Found?
    ensures
      var r := FirstWhole(Match(g, fuel, g.rules[start], InitialContext(start, toks), false).ctxts);
      && (r.WholeMatch? <==> Derivable(g, g.rules[start], toks))
      && (r.WholeMatch? ==>
            && r.ctxt == Context(toks, [], start, r.ctxt.bindings)
            && Bindable(g, g.rules[start], toks, r.ctxt.bindings))
  {
    var c := InitialContext(start, toks);
    MatchExact(g, fuel, g.rules[start], c, false);
    DerivableBinds(g, g.rules[start], toks);
    var cs := Match(g, fuel, g.rules[start], c, false).ctxts;
    forall d | d in cs && d.remainder == []
      ensures d == Context(toks, [], start, d.bindings) && Consumed(c, d) == toks && Bound(c, d) == d.bindings
    {
      WholeIs(start, toks, d);
    }
    if bs :| Bindable(g, g.rules[start], toks, bs) {
      WholeIs(start, toks, Context(toks, [], start, bs));
      assert Context(toks, [], start, bs) in cs;
    }
  }

  lemma WholeIs(start: string, toks: seq<Token>, d: Context)
    requires d.remainder == []
    ensures Continues(InitialContext(start, toks), d) <==> d == Context(toks, [], start, d.bindings)
    ensures Continues(InitialContext(start, toks), d) ==>
              Consumed(InitialContext(start, toks), d) == toks && Bound(InitialContext(start, toks), d) == d.bindings
  {
    assert toks[..|toks|] == toks && [] + toks == toks && [] + d.bindings == d.bindings;
    assert d.bindings[0..] == d.bindings;
  }
}
