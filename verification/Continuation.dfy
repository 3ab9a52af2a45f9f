/** Where a completion leads: which tokens may come next, and whether they can lead to a whole match. */
module Continuation {
  import opened Pylexotron
  import opened GrammarSemantics
  import opened Termination
  import opened Completion

  // ---- derivations of a list of matchers ----

  lemma {:induction false} DerivesMono(g: RuleSet, n: nat, more: nat, m: Matcher, toks: seq<Token>)
    requires n <= more && Derives(g, n, m, toks)
    ensures Derives(g, more, m, toks)
    decreases n, m, 0
  {
    match m
    case Leaf(_) =>
    case TypeOf(_, _) =>
    case Choice(branches) =>
      var i :| 0 <= i < |branches| && Derives(g, n, branches[i], toks);
      DerivesMono(g, n, more, branches[i], toks);
    case OneOrNone(arg) => if toks != [] { DerivesMono(g, n, more, arg, toks); }
    case Repeat(arg) => StarMono(g, n, more, arg, toks);
    case Ref(name) => DerivesMono(g, n - 1, more - 1, g.rules[name], toks);
    case Series(pieces) => SeqMono(g, n, more, pieces, toks);
    case NamedSymbol(_, arg) => DerivesMono(g, n, more, arg, toks);
    case NamedCollector(_, arg) => DerivesMono(g, n, more, arg, toks);
  }

  lemma {:induction false} SeqMono(g: RuleSet, n: nat, more: nat, ms: seq<Matcher>, toks: seq<Token>)
    requires n <= more && DerivesSeq(g, n, ms, toks)
    ensures DerivesSeq(g, more, ms, toks)
    decreases n, ms, 0
  {
    if ms != [] {
      var k :| 0 <= k <= |toks| && Derives(g, n, ms[0], toks[..k]) && DerivesSeq(g, n, ms[1..], toks[k..]);
      DerivesMono(g, n, more, ms[0], toks[..k]);
      SeqMono(g, n, more, ms[1..], toks[k..]);
    }
  }

  lemma {:induction false} StarMono(g: RuleSet, n: nat, more: nat, m: Matcher, toks: seq<Token>)
    requires n <= more && DerivesStar(g, n, m, toks)
    ensures DerivesStar(g, more, m, toks)
    decreases n, m, 1
  {
    if toks != [] {
      var k :| 0 <= k <= |toks| && Derives(g, n, m, toks[..k]) && DerivesStar(g, n - 1, m, toks[k..]);
      DerivesMono(g, n, more, m, toks[..k]);
      StarMono(g, n - 1, more - 1, m, toks[k..]);
    }
  }

  lemma SeqJoin(g: RuleSet, n0: nat, n1: nat, ms: seq<Matcher>, first: seq<Token>, rest: seq<Token>, whole: seq<Token>)
    requires ms != [] && Derives(g, n0, ms[0], first) && DerivesSeq(g, n1, ms[1..], rest) && whole == first + rest
    ensures DerivesSeq(g, n0 + n1, ms, whole)
  {
    SplitAt(first, rest);
    DerivesMono(g, n0, n0 + n1, ms[0], first);
    SeqMono(g, n1, n0 + n1, ms[1..], rest);
  }

  lemma StarJoin(g: RuleSet, n0: nat, n1: nat, m: Matcher, first: seq<Token>, rest: seq<Token>, whole: seq<Token>)
    requires Derives(g, n0, m, first) && DerivesStar(g, n1, m, rest) && whole == first + rest
    ensures DerivesStar(g, n0 + n1 + 1, m, whole)
  {
    SplitAt(first, rest);
    DerivesMono(g, n0, n0 + n1 + 1, m, first);
    StarMono(g, n1, n0 + n1, m, rest);
  }

  lemma CutFirst(toks: seq<Token>, k: nat, mid: seq<Token>, tail: seq<Token>)
    requires k <= |toks|
    ensures toks + mid + tail == toks[..k] + (toks[k..] + mid + tail)
  {
    assert toks == toks[..k] + toks[k..];
  }

  lemma SeqCons(g: RuleSet, n: nat, ms: seq<Matcher>, first: seq<Token>, rest: seq<Token>)
    requires ms != [] && Derives(g, n, ms[0], first) && DerivesSeq(g, n, ms[1..], rest)
    ensures DerivesSeq(g, n, ms, first + rest)
  {
    SplitAt(first, rest);
  }

  lemma ConsJoin(a: seq<Matcher>, b: seq<Matcher>)
    requires a != []
    ensures (a + b)[0] == a[0] && (a + b)[1..] == a[1..] + b
  {
  }

  lemma CutJoin(s: seq<Token>, t: seq<Token>, k: nat)
    requires k <= |s|
    ensures s + t == s[..k] + (s[k..] + t)
  {
    assert s == s[..k] + s[k..];
  }

  /** A list derives what its two halves derive one after the other. */
  lemma {:induction false} SeqConcat(g: RuleSet, n: nat, a: seq<Matcher>, b: seq<Matcher>, s: seq<Token>, t: seq<Token>)
    requires DerivesSeq(g, n, a, s) && DerivesSeq(g, n, b, t)
    ensures DerivesSeq(g, n, a + b, s + t)
    decreases |a|
  {
    if a == [] {
      assert a + b == b && s + t == t;
    } else {
      var k :| 0 <= k <= |s| && Derives(g, n, a[0], s[..k]) && DerivesSeq(g, n, a[1..], s[k..]);
      SeqConcat(g, n, a[1..], b, s[k..], t);
      ConsJoin(a, b);
      CutJoin(s, t, k);
      SeqCons(g, n, a + b, s[..k], s[k..] + t);
    }
  }

  lemma {:induction false} SeqSplit(g: RuleSet, n: nat, a: seq<Matcher>, b: seq<Matcher>, toks: seq<Token>)
    returns (k: nat)
    requires DerivesSeq(g, n, a + b, toks)
    ensures k <= |toks| && DerivesSeq(g, n, a, toks[..k]) && DerivesSeq(g, n, b, toks[k..])
    decreases |a|
  {
    if a == [] {
      assert a + b == b && toks[0..] == toks;
      k := 0;
    } else {
      assert (a + b)[1..] == a[1..] + b;
      var j :| 0 <= j <= |toks| && Derives(g, n, a[0], toks[..j]) && DerivesSeq(g, n, a[1..] + b, toks[j..]);
      var i := SeqSplit(g, n, a[1..], b, toks[j..]);
      k := j + i;
      assert toks[..k][..j] == toks[..j] && toks[..k][j..] == toks[j..][..i];
      assert toks[k..] == toks[j..][i..];
    }
  }

  lemma SeqOne(g: RuleSet, n: nat, m: Matcher, toks: seq<Token>)
    ensures DerivesSeq(g, n, [m], toks) <==> Derives(g, n, m, toks)
  {
    if Derives(g, n, m, toks) {
      assert toks[..|toks|] == toks && DerivesSeq(g, n, [m][1..], toks[|toks|..]);
    }
    if DerivesSeq(g, n, [m], toks) {
      var k :| 0 <= k <= |toks| && Derives(g, n, m, toks[..k]) && DerivesSeq(g, n, [m][1..], toks[k..]);
      assert toks[..k] == toks;
    }
  }

  predicate PositionAccepts(g: RuleSet, p: Position, tok: Token)
    requires IsTerminal(p.target)
  {
    if p.target.Leaf? then Accepts(g, p.target.term, tok) else tok.kind == p.target.kind
  }

  /** The matchers behind a position can derive `tail`. */
  ghost predicate Completes(g: RuleSet, todo: seq<Matcher>, tail: seq<Token>) {
    exists h: nat :: DerivesSeq(g, h, todo, tail)
  }

  // ---- what a position derives, and what is derived behind it, complete the match ----

  /** What `m` consumes from `c` to `d`, and then what is behind. */
  lemma LeadsDerives(g: RuleSet, n: nat, m: Matcher, c: Context, d: Context, mid: seq<Token>, tail: seq<Token>)
    requires Leads(g, n, m, c, d)
    ensures Derives(g, n, m, Consumed(c, d))
    ensures c.remainder + mid + tail == Consumed(c, d) + (d.remainder + mid + tail)
  {
    BindsDerives(g, n, m, Consumed(c, d), Bound(c, d));
    CutFirst(c.remainder, |c.remainder| - |d.remainder|, mid, tail);
  }

  /** After the input of `c`, tokens that the matcher at the position derives, and whatever the
      matchers behind it derive. */
  lemma {:induction false} PositionLeads(
    g: RuleSet, n: nat, h: nat, m: Matcher, c: Context, p: Position, mid: seq<Token>, tail: seq<Token>)
    returns (d: nat)
    requires Expects(g, n, m, c, p) && Derives(g, h, p.target, mid) && DerivesSeq(g, h, p.todo, tail)
    ensures Derives(g, d, m, c.remainder + mid + tail)
    decreases n, m, 0
  {
    match m
    case Leaf(_) => d := TargetLeads(g, h, m, c, p, mid, tail);
    case TypeOf(_, _) => d := TargetLeads(g, h, m, c, p, mid, tail);
    case Choice(branches) =>
      var i :| 0 <= i < |branches| && Expects(g, n, branches[i], c, p);
      d := PositionLeads(g, n, h, branches[i], c, p, mid, tail);
    case OneOrNone(arg) => d := PositionLeads(g, n, h, arg, c, p, mid, tail);
    case Repeat(arg) => d := StarLeads(g, n, h, arg, c, p, mid, tail);
    case Ref(name) =>
      d := PositionLeads(g, n - 1, h, g.rules[name], c.(production := name), p, mid, tail);
      d := d + 1;
    case Series(pieces) => d := SeqLeads(g, n, h, pieces, c, p, mid, tail);
    case NamedSymbol(_, _) => d := NamedLeads(g, n, h, m, c, p, mid, tail);
    case NamedCollector(_, _) => d := NamedLeads(g, n, h, m, c, p, mid, tail);
  }

  lemma TargetLeads(g: RuleSet, h: nat, m: Matcher, c: Context, p: Position, mid: seq<Token>, tail: seq<Token>)
    returns (d: nat)
    requires c.remainder == [] && p == Position(m, c, [], [])
    requires Derives(g, h, m, mid) && DerivesSeq(g, h, p.todo, tail)
    ensures Derives(g, d, m, c.remainder + mid + tail)
  {
    assert c.remainder + mid + tail == mid;
    d := h;
  }

  lemma {:induction false} NamedLeads(
    g: RuleSet, n: nat, h: nat, m: Matcher, c: Context, p: Position, mid: seq<Token>, tail: seq<Token>)
    returns (d: nat)
    requires IsNamed(m)
    requires ExpectsNamed(g, n, m, c, p) && Derives(g, h, p.target, mid) && DerivesSeq(g, h, p.todo, tail)
    ensures Derives(g, d, m, c.remainder + mid + tail)
    decreases n, m.arg, 2
  {
    if c.remainder != [] {
      d := PositionLeads(g, n, h, m.arg, c, p, mid, tail);
    } else if p == Position(m, c, [], []) {
      d := TargetLeads(g, h, m, c, p, mid, tail);
    } else {
      d := PositionLeads(g, n, h, m.arg, c, p.(around := p.around[1..]), mid, tail);
    }
  }

  lemma {:induction false} SeqLeads(
    g: RuleSet, n: nat, h: nat, ms: seq<Matcher>, c: Context, p: Position, mid: seq<Token>, tail: seq<Token>)
    returns (d: nat)
    requires ExpectsSeq(g, n, ms, c, p) && Derives(g, h, p.target, mid) && DerivesSeq(g, h, p.todo, tail)
    ensures DerivesSeq(g, d, ms, c.remainder + mid + tail)
    decreases n, ms, 0
  {
    if Follows(p, ms[1..]) && Expects(g, n, ms[0], c, Inner(p, ms[1..])) {
      var k := SplitTodo(g, h, p, ms[1..], tail);
      var d0 := PositionLeads(g, n, h, ms[0], c, Inner(p, ms[1..]), mid, tail[..k]);
      PieceAndMore(g, d0, h, ms, c.remainder, mid, tail, k);
      d := d0 + h;
    } else {
      var e :| Leads(g, n, ms[0], c, e) && ExpectsSeq(g, n, ms[1..], e, p);
      var d1 := SeqLeads(g, n, h, ms[1..], e, p, mid, tail);
      LaterPiece(g, n, d1, ms, c, e, mid, tail);
      d := n + d1;
    }
  }

  lemma PieceAndMore(
    g: RuleSet, d: nat, h: nat, ms: seq<Matcher>, toks: seq<Token>, mid: seq<Token>, tail: seq<Token>, k: nat)
    requires ms != [] && k <= |tail|
    requires Derives(g, d, ms[0], toks + mid + tail[..k]) && DerivesSeq(g, h, ms[1..], tail[k..])
    ensures DerivesSeq(g, d + h, ms, toks + mid + tail)
  {
    CutLast(toks, mid, tail, k);
    SeqJoin(g, d, h, ms, toks + mid + tail[..k], tail[k..], toks + mid + tail);
  }

  lemma LaterPiece(
    g: RuleSet, n: nat, d: nat, ms: seq<Matcher>, c: Context, e: Context, mid: seq<Token>, tail: seq<Token>)
    requires ms != [] && Leads(g, n, ms[0], c, e) && DerivesSeq(g, d, ms[1..], e.remainder + mid + tail)
    ensures DerivesSeq(g, n + d, ms, c.remainder + mid + tail)
  {
    LeadsDerives(g, n, ms[0], c, e, mid, tail);
    SeqJoin(g, n, d, ms, Consumed(c, e), e.remainder + mid + tail, c.remainder + mid + tail);
  }

  lemma {:induction false} StarLeads(
    g: RuleSet, n: nat, h: nat, m: Matcher, c: Context, p: Position, mid: seq<Token>, tail: seq<Token>)
    returns (d: nat)
    requires ExpectsStar(g, n, m, c, p) && Derives(g, h, p.target, mid) && DerivesSeq(g, h, p.todo, tail)
    ensures DerivesStar(g, d, m, c.remainder + mid + tail)
    decreases n, m, 2
  {
    var now, e := ThisRound(g, n, m, c, p);
    if now {
      d := FirstRound(g, n, h, m, c, p, mid, tail);
    } else {
      var d1 := StarLeads(g, n - 1, h, m, e, p, mid, tail);
      LaterRound(g, n, d1, m, c, e, mid, tail);
      d := n + d1 + 1;
    }
  }

  lemma {:induction false} FirstRound(
    g: RuleSet, n: nat, h: nat, m: Matcher, c: Context, p: Position, mid: seq<Token>, tail: seq<Token>)
    returns (d: nat)
    requires Follows(p, [Repeat(m)]) && Expects(g, n, m, c, Inner(p, [Repeat(m)]))
    requires Derives(g, h, p.target, mid) && DerivesSeq(g, h, p.todo, tail)
    ensures DerivesStar(g, d, m, c.remainder + mid + tail)
    decreases n, m, 1
  {
    var k := SplitTodo(g, h, p, [Repeat(m)], tail);
    var d0 := PositionLeads(g, n, h, m, c, Inner(p, [Repeat(m)]), mid, tail[..k]);
    RoundAndMore(g, d0, h, m, c.remainder, mid, tail, k);
    d := d0 + h + 1;
  }

  lemma RoundAndMore(
    g: RuleSet, d: nat, h: nat, m: Matcher, toks: seq<Token>, mid: seq<Token>, tail: seq<Token>, k: nat)
    requires k <= |tail| && Derives(g, d, m, toks + mid + tail[..k]) && DerivesSeq(g, h, [Repeat(m)], tail[k..])
    ensures DerivesStar(g, d + h + 1, m, toks + mid + tail)
  {
    SeqOne(g, h, Repeat(m), tail[k..]);
    CutLast(toks, mid, tail, k);
    StarJoin(g, d, h, m, toks + mid + tail[..k], tail[k..], toks + mid + tail);
  }

  lemma LaterRound(g: RuleSet, n: nat, d: nat, m: Matcher, c: Context, e: Context, mid: seq<Token>, tail: seq<Token>)
    requires Leads(g, n, m, c, e) && DerivesStar(g, d, m, e.remainder + mid + tail)
    ensures DerivesStar(g, n + d + 1, m, c.remainder + mid + tail)
  {
    LeadsDerives(g, n, m, c, e, mid, tail);
    StarJoin(g, n, d, m, Consumed(c, e), e.remainder + mid + tail, c.remainder + mid + tail);
  }

  lemma SplitTodo(g: RuleSet, h: nat, p: Position, rest: seq<Matcher>, tail: seq<Token>) returns (k: nat)
    requires Follows(p, rest) && DerivesSeq(g, h, p.todo, tail)
    ensures k <= |tail| && DerivesSeq(g, h, Inner(p, rest).todo, tail[..k]) && DerivesSeq(g, h, rest, tail[k..])
  {
    assert p.todo == Inner(p, rest).todo + rest;
    k := SeqSplit(g, h, Inner(p, rest).todo, rest, tail);
  }

  lemma CutLast(toks: seq<Token>, mid: seq<Token>, tail: seq<Token>, k: nat)
    requires k <= |tail|
    ensures toks + mid + tail == toks + mid + tail[..k] + tail[k..]
  {
    assert tail == tail[..k] + tail[k..];
  }

  // ---- and every match comes about this way ----

  /** In a derivation of the input of `c`, `tok` and `tail` the token `tok` is read at an expected
      position, and the matchers behind it derive `tail`. */
  lemma {:induction false} PositionFound(g: RuleSet, n: nat, m: Matcher, c: Context, tok: Token, tail: seq<Token>)
    returns (p: Position)
    requires Derives(g, n, m, c.remainder + [tok] + tail)
    ensures IsTerminal(p.target) && PositionAccepts(g, p, tok)
    ensures Expects(g, n, m, c, p) && DerivesSeq(g, n, p.todo, tail)
    decreases n, m, 0
  {
    match m
    case Leaf(_) => p := LeafFound(g, n, m, c, tok, tail);
    case TypeOf(_, _) => p := LeafFound(g, n, m, c, tok, tail);
    case Choice(branches) =>
      var i :| 0 <= i < |branches| && Derives(g, n, branches[i], c.remainder + [tok] + tail);
      p := PositionFound(g, n, branches[i], c, tok, tail);
    case OneOrNone(arg) => p := PositionFound(g, n, arg, c, tok, tail);
    case Repeat(arg) => p := StarFound(g, n, arg, c, tok, tail);
    case Ref(name) =>
      p := PositionFound(g, n - 1, g.rules[name], c.(production := name), tok, tail);
      SeqMono(g, n - 1, n, p.todo, tail);
    case Series(pieces) => p := SeqFound(g, n, pieces, c, tok, tail);
    case NamedSymbol(_, _) => p := NamedFound(g, n, m, c, tok, tail);
    case NamedCollector(_, _) => p := NamedFound(g, n, m, c, tok, tail);
  }

  lemma {:induction false} NamedFound(g: RuleSet, n: nat, m: Matcher, c: Context, tok: Token, tail: seq<Token>)
    returns (p: Position)
    requires IsNamed(m) && Derives(g, n, m.arg, c.remainder + [tok] + tail)
    ensures IsTerminal(p.target) && PositionAccepts(g, p, tok)
    ensures ExpectsNamed(g, n, m, c, p) && DerivesSeq(g, n, p.todo, tail)
    decreases n, m.arg, 2
  {
    p := PositionFound(g, n, m.arg, c, tok, tail);
    if c.remainder == [] {
      var q := p;
      p := Within(q, Name(m.sym, c));
      assert p.(around := p.around[1..]) == q;
    }
  }

  lemma LeafFound(g: RuleSet, n: nat, m: Matcher, c: Context, tok: Token, tail: seq<Token>) returns (p: Position)
    requires IsTerminal(m) && Derives(g, n, m, c.remainder + [tok] + tail)
    ensures p == Position(m, c, [], []) && PositionAccepts(g, p, tok) && c.remainder == [] && tail == []
  {
    var whole := c.remainder + [tok] + tail;
    assert |whole| == 1 && whole[|c.remainder|] == tok;
    p := Position(m, c, [], []);
  }

  /** A derivation of a prefix of the input leads somewhere. */
  lemma PrefixLeads(g: RuleSet, n: nat, m: Matcher, c: Context, k: nat) returns (d: Context)
    requires k <= |c.remainder| && Derives(g, n, m, c.remainder[..k])
    ensures Leads(g, n, m, c, d) && d.remainder == c.remainder[k..]
  {
    var bs := DerivesBinds(g, n, m, c.remainder[..k]);
    d := Reached(c, k, bs);
    ReachedContinues(c, k, bs);
  }

  lemma {:induction false} SeqFound(g: RuleSet, n: nat, ms: seq<Matcher>, c: Context, tok: Token, tail: seq<Token>)
    returns (p: Position)
    requires DerivesSeq(g, n, ms, c.remainder + [tok] + tail)
    ensures IsTerminal(p.target) && PositionAccepts(g, p, tok)
    ensures ExpectsSeq(g, n, ms, c, p) && DerivesSeq(g, n, p.todo, tail)
    decreases n, ms, 0
  {
    var toks, whole := c.remainder, c.remainder + [tok] + tail;
    assert |whole| > 0;
    var k :| 0 <= k <= |whole| && Derives(g, n, ms[0], whole[..k]) && DerivesSeq(g, n, ms[1..], whole[k..]);
    if k <= |toks| {
      CutEarly(toks, tok, tail, k);
      var d := PrefixLeads(g, n, ms[0], c, k);
      p := SeqFound(g, n, ms[1..], d, tok, tail);
    } else {
      CutLate(toks, tok, tail, k - |toks| - 1);
      p := PieceFound(g, n, ms, c, tok, tail, k - |toks| - 1);
    }
  }

  /** The token is read in the first piece. */
  lemma {:induction false} PieceFound(
    g: RuleSet, n: nat, ms: seq<Matcher>, c: Context, tok: Token, tail: seq<Token>, j: nat)
    returns (p: Position)
    requires ms != [] && j <= |tail|
    requires Derives(g, n, ms[0], c.remainder + [tok] + tail[..j]) && DerivesSeq(g, n, ms[1..], tail[j..])
    ensures IsTerminal(p.target) && PositionAccepts(g, p, tok)
    ensures ExpectsSeq(g, n, ms, c, p) && DerivesSeq(g, n, p.todo, tail)
    decreases n, ms[0], 3
  {
    var q := PositionFound(g, n, ms[0], c, tok, tail[..j]);
    InnerBefore(q, ms[1..]);
    TodoJoin(g, n, q, ms[1..], tail, j);
    p := Before(q, ms[1..]);
  }

  lemma TodoJoin(g: RuleSet, n: nat, q: Position, rest: seq<Matcher>, tail: seq<Token>, j: nat)
    requires j <= |tail| && DerivesSeq(g, n, q.todo, tail[..j]) && DerivesSeq(g, n, rest, tail[j..])
    ensures DerivesSeq(g, n, Before(q, rest).todo, tail)
  {
    SeqConcat(g, n, q.todo, rest, tail[..j], tail[j..]);
    assert tail == tail[..j] + tail[j..];
  }

  lemma {:induction false} StarFound(g: RuleSet, n: nat, m: Matcher, c: Context, tok: Token, tail: seq<Token>)
    returns (p: Position)
    requires DerivesStar(g, n, m, c.remainder + [tok] + tail)
    ensures IsTerminal(p.target) && PositionAccepts(g, p, tok)
    ensures ExpectsStar(g, n, m, c, p) && DerivesSeq(g, n, p.todo, tail)
    decreases n, m, 2
  {
    var toks, whole := c.remainder, c.remainder + [tok] + tail;
    assert |whole| > 0;
    var k :| 0 <= k <= |whole| && Derives(g, n, m, whole[..k]) && DerivesStar(g, n - 1, m, whole[k..]);
    if k <= |toks| {
      CutEarly(toks, tok, tail, k);
      var d := PrefixLeads(g, n, m, c, k);
      p := StarFound(g, n - 1, m, d, tok, tail);
      SeqMono(g, n - 1, n, p.todo, tail);
    } else {
      CutLate(toks, tok, tail, k - |toks| - 1);
      p := RoundFound(g, n, m, c, tok, tail, k - |toks| - 1);
    }
  }

  /** The token is read in the first round. */
  lemma {:induction false} RoundFound(
    g: RuleSet, n: nat, m: Matcher, c: Context, tok: Token, tail: seq<Token>, j: nat)
    returns (p: Position)
    requires n > 0 && j <= |tail|
    requires Derives(g, n, m, c.remainder + [tok] + tail[..j]) && DerivesStar(g, n - 1, m, tail[j..])
    ensures IsTerminal(p.target) && PositionAccepts(g, p, tok)
    ensures ExpectsStar(g, n, m, c, p) && DerivesSeq(g, n, p.todo, tail)
    decreases n, m, 1
  {
    var q := PositionFound(g, n, m, c, tok, tail[..j]);
    InnerBefore(q, [Repeat(m)]);
    MoreRounds(g, n, m, tail[j..]);
    TodoJoin(g, n, q, [Repeat(m)], tail, j);
    p := Before(q, [Repeat(m)]);
  }

  lemma MoreRounds(g: RuleSet, n: nat, m: Matcher, toks: seq<Token>)
    requires n > 0 && DerivesStar(g, n - 1, m, toks)
    ensures DerivesSeq(g, n, [Repeat(m)], toks)
  {
    StarMono(g, n - 1, n, m, toks);
    SeqOne(g, n, Repeat(m), toks);
  }

  lemma CutEarly(toks: seq<Token>, tok: Token, tail: seq<Token>, k: nat)
    requires k <= |toks|
    ensures (toks + [tok] + tail)[..k] == toks[..k] && (toks + [tok] + tail)[k..] == toks[k..] + [tok] + tail
  {
  }

  lemma CutLate(toks: seq<Token>, tok: Token, tail: seq<Token>, j: nat)
    requires j <= |tail|
    ensures (toks + [tok] + tail)[..|toks| + 1 + j] == toks + [tok] + tail[..j]
    ensures (toks + [tok] + tail)[|toks| + 1 + j..] == tail[j..]
  {
  }

  // ---- which tokens may come next ----

  lemma AcceptsDerives(g: RuleSet, n: nat, p: Position, tok: Token)
    requires IsTerminal(p.target)
    ensures PositionAccepts(g, p, tok) <==> Derives(g, n, p.target, [tok])
  {
  }

  /** A position expected after the input of `c` accepts `tok` and can be completed with `tail`. */
  ghost predicate NextAt(g: RuleSet, m: Matcher, c: Context, p: Position, tok: Token, tail: seq<Token>) {
    && (exists n: nat :: Expects(g, n, m, c, p))
    && IsTerminal(p.target) && PositionAccepts(g, p, tok) && Completes(g, p.todo, tail)
  }

  /** An input goes on with `tok` and `tail` to a derivable one exactly when an expected position
      accepts `tok` and the matchers behind that position derive `tail`. */
  lemma NextTokenExact(g: RuleSet, m: Matcher, c: Context, tok: Token, tail: seq<Token>)
    ensures Derivable(g, m, c.remainder + [tok] + tail) <==> exists p :: NextAt(g, m, c, p, tok, tail)
  {
    if Derivable(g, m, c.remainder + [tok] + tail) {
      var n: nat :| Derives(g, n, m, c.remainder + [tok] + tail);
      var p := PositionFound(g, n, m, c, tok, tail);
      assert Completes(g, p.todo, tail);
      assert NextAt(g, m, c, p, tok, tail);
    }
    if p :| NextAt(g, m, c, p, tok, tail) {
      var n: nat :| Expects(g, n, m, c, p);
      var h: nat :| DerivesSeq(g, h, p.todo, tail);
      AcceptsDerives(g, h, p, tok);
      var d := PositionLeads(g, n, h, m, c, p, [tok], tail);
    }
  }

  // ---- what the user is shown for a position ----

  /** The named matcher around a position is a position itself. */
  lemma {:induction false} AroundExpected(g: RuleSet, n: nat, m: Matcher, c: Context, p: Position, i: nat)
    returns (q: Position)
    requires Expects(g, n, m, c, p) && i < |p.around|
    ensures Expects(g, n, m, c, q)
    ensures IsNamed(q.target) && Name(q.target.sym, q.at) == p.around[i] && q.around == p.around[..i]
    decreases n, m, 0
  {
    match m
    case Leaf(_) =>
    case TypeOf(_, _) =>
    case Choice(branches) =>
      var j :| 0 <= j < |branches| && Expects(g, n, branches[j], c, p);
      q := AroundExpected(g, n, branches[j], c, p, i);
    case OneOrNone(arg) => q := AroundExpected(g, n, arg, c, p, i);
    case Repeat(arg) => q := StarAround(g, n, arg, c, p, i);
    case Ref(name) => q := AroundExpected(g, n - 1, g.rules[name], c.(production := name), p, i);
    case Series(pieces) => q := SeqAround(g, n, pieces, c, p, i);
    case NamedSymbol(_, _) => q := NamedAround(g, n, m, c, p, i);
    case NamedCollector(_, _) => q := NamedAround(g, n, m, c, p, i);
  }

  lemma {:induction false} NamedAround(g: RuleSet, n: nat, m: Matcher, c: Context, p: Position, i: nat)
    returns (q: Position)
    requires IsNamed(m) && ExpectsNamed(g, n, m, c, p) && i < |p.around|
    ensures ExpectsNamed(g, n, m, c, q)
    ensures IsNamed(q.target) && Name(q.target.sym, q.at) == p.around[i] && q.around == p.around[..i]
    decreases n, m.arg, 2
  {
    if c.remainder != [] {
      q := AroundExpected(g, n, m.arg, c, p, i);
    } else if i == 0 {
      q := Position(m, c, [], []);
    } else {
      var r := AroundExpected(g, n, m.arg, c, p.(around := p.around[1..]), i - 1);
      q := Within(r, Name(m.sym, c));
      assert q.(around := q.around[1..]) == r;
    }
  }

  lemma {:induction false} SeqAround(g: RuleSet, n: nat, ms: seq<Matcher>, c: Context, p: Position, i: nat)
    returns (q: Position)
    requires ExpectsSeq(g, n, ms, c, p) && i < |p.around|
    ensures ExpectsSeq(g, n, ms, c, q)
    ensures IsNamed(q.target) && Name(q.target.sym, q.at) == p.around[i] && q.around == p.around[..i]
    decreases n, ms, 0
  {
    if Follows(p, ms[1..]) && Expects(g, n, ms[0], c, Inner(p, ms[1..])) {
      var r := AroundExpected(g, n, ms[0], c, Inner(p, ms[1..]), i);
      InnerBefore(r, ms[1..]);
      q := Before(r, ms[1..]);
    } else {
      var d :| Leads(g, n, ms[0], c, d) && ExpectsSeq(g, n, ms[1..], d, p);
      q := SeqAround(g, n, ms[1..], d, p, i);
    }
  }

  lemma {:induction false} StarAround(g: RuleSet, n: nat, m: Matcher, c: Context, p: Position, i: nat)
    returns (q: Position)
    requires ExpectsStar(g, n, m, c, p) && i < |p.around|
    ensures ExpectsStar(g, n, m, c, q)
    ensures IsNamed(q.target) && Name(q.target.sym, q.at) == p.around[i] && q.around == p.around[..i]
    decreases n, m, 1
  {
    if Follows(p, [Repeat(m)]) && Expects(g, n, m, c, Inner(p, [Repeat(m)])) {
      var r := AroundExpected(g, n, m, c, Inner(p, [Repeat(m)]), i);
      InnerBefore(r, [Repeat(m)]);
      q := Before(r, [Repeat(m)]);
    } else {
      var d :| Leads(g, n, m, c, d) && ExpectsStar(g, n - 1, m, d, p);
      q := StarAround(g, n - 1, m, d, p, i);
    }
  }

  /** The first of these named matchers whose completer answers, or their number. */
  ghost function FirstAnswer(g: RuleSet, names: seq<Name>): (i: nat)
    ensures i <= |names| && (i < |names| ==> !Silent(g, names[i]))
    ensures forall j :: 0 <= j < i ==> Silent(g, names[j])
  {
    if names == [] || !Silent(g, names[0]) then 0
    else
      var i := FirstAnswer(g, names[1..]);
      assert forall j :: 0 <= j < i ==> names[j + 1] == names[1..][j];
      1 + i
  }

  /** What is offered stands for `p`: its own label, unless a completer of a named matcher around it
      answers; then the words of the outermost such one. */
  ghost predicate ShownBy(g: RuleSet, p: Position, offered: set<Pylexotron.Completion>)
    requires IsTerminal(p.target)
  {
    var i := FirstAnswer(g, p.around);
    if i == |p.around| then PositionLabel(p) in offered
    else forall words :: Answers(g, p.around[i], words) ==> words <= offered
  }

  /** Every expected terminal is represented in what is offered. */
  lemma TerminalShown(g: RuleSet, fuel: nat, start: string, toks: seq<Token>, n: nat, p: Position)
    requires start in g.rules && Match(g, fuel, g.rules[start], InitialContext(start, toks), true).Found?
    requires Expects(g, n, g.rules[start], InitialContext(start, toks), p) && IsTerminal(p.target)
    ensures ShownBy(g, p, Match(g, fuel, g.rules[start], InitialContext(start, toks), true).offered)
  {
    var m, c := g.rules[start], InitialContext(start, toks);
    var offered := Match(g, fuel, m, c, true).offered;
    var i := FirstAnswer(g, p.around);
    CompletionExact(g, fuel, start, toks);
    if i == |p.around| {
      assert Open(g, p) && Offers(g, p, PositionLabel(p));
      assert Expected(g, m, c, PositionLabel(p));
    } else {
      var q := AroundExpected(g, n, m, c, p, i);
      forall words, w | Answers(g, p.around[i], words) && w in words
        ensures w in offered
      {
        assert Open(g, q) && Offers(g, q, w);
        assert Expected(g, m, c, w);
      }
    }
  }

  /** For every table: a token can be appended to `toks` and continued to a whole match exactly when
      a position that accepts it and can be completed is represented in what is offered. */
  lemma OfferedLeadsToMatch(g: RuleSet, fuel: nat, start: string, toks: seq<Token>, tok: Token)
    requires start in g.rules
    requires Match(g, fuel, g.rules[start], InitialContext(start, toks), true).Found?
    ensures
      var c := InitialContext(start, toks);
      var offered := Match(g, fuel, g.rules[start], c, true).offered;
      (exists tail :: Derivable(g, g.rules[start], toks + [tok] + tail)) <==>
      exists p, tail :: NextAt(g, g.rules[start], c, p, tok, tail) && ShownBy(g, p, offered)
  {
    var m, c := g.rules[start], InitialContext(start, toks);
    var offered := Match(g, fuel, m, c, true).offered;
    if tail :| Derivable(g, m, toks + [tok] + tail) {
      NextTokenExact(g, m, c, tok, tail);
      var p :| NextAt(g, m, c, p, tok, tail);
      var n: nat :| Expects(g, n, m, c, p);
      TerminalShown(g, fuel, start, toks, n, p);
    }
    if p, tail :| NextAt(g, m, c, p, tok, tail) && ShownBy(g, p, offered) {
      NextTokenExact(g, m, c, tok, tail);
    }
  }

  // ---- tables in which every offer leads on ----

  /** Every part of `m` derives something. */
  ghost predicate ProductiveIn(g: RuleSet, m: Matcher) {
    forall x :: Occurs(x, m) ==> exists toks :: Derivable(g, x, toks)
  }

  ghost predicate Productive(g: RuleSet) {
    forall name :: name in g.rules ==> ProductiveIn(g, g.rules[name])
  }

  lemma {:induction false} SeqProduces(g: RuleSet, ms: seq<Matcher>) returns (n: nat, toks: seq<Token>)
    requires forall i :: 0 <= i < |ms| ==> ProductiveIn(g, ms[i])
    ensures DerivesSeq(g, n, ms, toks)
  {
    if ms == [] {
      n, toks := 0, [];
    } else {
      assert Occurs(ms[0], ms[0]);
      var first :| Derivable(g, ms[0], first);
      var n0: nat :| Derives(g, n0, ms[0], first);
      var n1, rest := SeqProduces(g, ms[1..]);
      n, toks := n0 + n1, first + rest;
      SeqJoin(g, n0, n1, ms, first, rest, toks);
    }
  }

  ghost predicate AllProductive(g: RuleSet, ms: seq<Matcher>) {
    forall i :: 0 <= i < |ms| ==> ProductiveIn(g, ms[i])
  }

  lemma {:induction false} TodoProductive(g: RuleSet, n: nat, m: Matcher, c: Context, p: Position)
    requires Productive(g) && ProductiveIn(g, m) && Expects(g, n, m, c, p)
    ensures AllProductive(g, p.todo)
    decreases n, m, 0
  {
    match m
    case Leaf(_) =>
    case TypeOf(_, _) =>
    case Choice(branches) =>
      var i :| 0 <= i < |branches| && Expects(g, n, branches[i], c, p);
      assert forall x :: Occurs(x, branches[i]) ==> Occurs(x, m);
      TodoProductive(g, n, branches[i], c, p);
    case OneOrNone(arg) =>
      assert forall x :: Occurs(x, arg) ==> Occurs(x, m);
      TodoProductive(g, n, arg, c, p);
    case Repeat(arg) => StarProductive(g, n, arg, c, p);
    case Ref(name) => TodoProductive(g, n - 1, g.rules[name], c.(production := name), p);
    case Series(pieces) =>
      forall i | 0 <= i < |pieces|
        ensures ProductiveIn(g, pieces[i])
      {
        assert forall x :: Occurs(x, pieces[i]) ==> Occurs(x, m);
      }
      SeqProductive(g, n, pieces, c, p);
    case NamedSymbol(_, arg) =>
      assert forall x :: Occurs(x, arg) ==> Occurs(x, m);
      NamedProductive(g, n, m, c, p);
    case NamedCollector(_, arg) =>
      assert forall x :: Occurs(x, arg) ==> Occurs(x, m);
      NamedProductive(g, n, m, c, p);
  }

  lemma {:induction false} NamedProductive(g: RuleSet, n: nat, m: Matcher, c: Context, p: Position)
    requires IsNamed(m) && Productive(g) && ProductiveIn(g, m.arg) && ExpectsNamed(g, n, m, c, p)
    ensures AllProductive(g, p.todo)
    decreases n, m.arg, 2
  {
    if c.remainder != [] {
      TodoProductive(g, n, m.arg, c, p);
    } else if p != Position(m, c, [], []) {
      TodoProductive(g, n, m.arg, c, p.(around := p.around[1..]));
    }
  }

  lemma {:induction false} SeqProductive(g: RuleSet, n: nat, ms: seq<Matcher>, c: Context, p: Position)
    requires Productive(g) && AllProductive(g, ms) && ExpectsSeq(g, n, ms, c, p)
    ensures AllProductive(g, p.todo)
    decreases n, ms, 0
  {
    if Follows(p, ms[1..]) && Expects(g, n, ms[0], c, Inner(p, ms[1..])) {
      TodoProductive(g, n, ms[0], c, Inner(p, ms[1..]));
      assert p.todo == Inner(p, ms[1..]).todo + ms[1..];
    } else {
      var d :| Leads(g, n, ms[0], c, d) && ExpectsSeq(g, n, ms[1..], d, p);
      SeqProductive(g, n, ms[1..], d, p);
    }
  }

  lemma {:induction false} StarProductive(g: RuleSet, n: nat, m: Matcher, c: Context, p: Position)
    requires Productive(g) && ProductiveIn(g, Repeat(m)) && ExpectsStar(g, n, m, c, p)
    ensures AllProductive(g, p.todo)
    decreases n, m, 1
  {
    assert forall x :: Occurs(x, m) ==> Occurs(x, Repeat(m));
    if Follows(p, [Repeat(m)]) && Expects(g, n, m, c, Inner(p, [Repeat(m)])) {
      TodoProductive(g, n, m, c, Inner(p, [Repeat(m)]));
      assert p.todo == Inner(p, [Repeat(m)]).todo + [Repeat(m)];
    } else {
      var d :| Leads(g, n, m, c, d) && ExpectsStar(g, n - 1, m, d, p);
      StarProductive(g, n - 1, m, d, p);
    }
  }

  /** If every part of every rule derives something, every offer leads to a whole match: it comes
      from an open position, and after whatever the matcher there derives there is a way to go on. */
  lemma ProductiveOffersLead(g: RuleSet, fuel: nat, start: string, toks: seq<Token>, w: Pylexotron.Completion)
    returns (p: Position)
    requires start in g.rules && Productive(g)
    requires Match(g, fuel, g.rules[start], InitialContext(start, toks), true).Found?
    requires w in Match(g, fuel, g.rules[start], InitialContext(start, toks), true).offered
    ensures Open(g, p) && Offers(g, p, w)
    ensures forall mid :: Derivable(g, p.target, mid) ==>
        exists tail :: Derivable(g, g.rules[start], toks + mid + tail)
  {
    var m, c := g.rules[start], InitialContext(start, toks);
    p := OfferSound(g, fuel, m, c, w);
    TodoProductive(g, fuel, m, c, p);
    var h, tail := SeqProduces(g, p.todo);
    forall mid | Derivable(g, p.target, mid)
      ensures exists tail :: Derivable(g, m, toks + mid + tail)
    {
      var h0: nat :| Derives(g, h0, p.target, mid);
      DerivesMono(g, h0, h0 + h, p.target, mid);
      SeqMono(g, h, h0 + h, p.todo, tail);
      var d := PositionLeads(g, fuel, h0 + h, m, c, p, mid, tail);
      assert Derivable(g, m, toks + mid + tail);
    }
  }

  /** A literal that is offered for a terminal of its own is accepted there as it stands. */
  lemma LiteralAccepted(g: RuleSet, p: Position, lit: string, kind: string)
    requires p.target.Leaf? && PositionLabel(p) == Word(lit)
    ensures PositionAccepts(g, p, Token(kind, lit))
  {
  }

  /** So, in such tables, what is offered literally can be appended literally; where a token class
      stands behind the literal, any token of that class can. A word from a completer is only as
      good as the completer. */
  lemma OfferedLiteralLeads(g: RuleSet, fuel: nat, start: string, toks: seq<Token>, lit: string, kind: string)
    returns (p: Position)
    requires start in g.rules && Productive(g)
    requires Match(g, fuel, g.rules[start], InitialContext(start, toks), true).Found?
    requires Word(lit) in Match(g, fuel, g.rules[start], InitialContext(start, toks), true).offered
    ensures Open(g, p) && Offers(g, p, Word(lit))
    ensures p.target.Leaf? || (p.target.TypeOf? && p.target.kind == kind) ==>
              exists tail :: Derivable(g, g.rules[start], toks + [Token(kind, lit)] + tail)
  {
    p := ProductiveOffersLead(g, fuel, start, toks, Word(lit));
    var tok := Token(kind, lit);
    if p.target.Leaf? {
      LiteralAccepted(g, p, lit, kind);
    }
    if IsTerminal(p.target) && PositionAccepts(g, p, tok) {
      AcceptsDerives(g, 0, p, tok);
      assert Derivable(g, p.target, [tok]);
      var tail :| Derivable(g, g.rules[start], toks + [tok] + tail);
      assert Derivable(g, g.rules[start], toks + [Token(kind, lit)] + tail);
    }
  }

  // ---- a table in which an offer leads nowhere ----

  const A := Leaf(Text("a"))
  const LOOP := Series([Leaf(Text("b")), Ref("loop")])

  /** `start ::= "a" <loop> ; loop ::= "b" <loop>`. */
  function DeadEnd(): RuleSet {
    RuleSet(map["start" := Series([A, Ref("loop")]), "loop" := LOOP], (p: string, t: string) => false, map[])
  }

  lemma {:induction false} LoopNever(n: nat, toks: seq<Token>)
    ensures !Derives(DeadEnd(), n, Ref("loop"), toks)
    decreases n
  {
    var g := DeadEnd();
    if Derives(g, n, Ref("loop"), toks) {
      assert g.rules["loop"] == LOOP;
      assert Derives(g, n - 1, LOOP, toks);
      var k :| 0 <= k <= |toks| && Derives(g, n - 1, LOOP.pieces[0], toks[..k])
          && DerivesSeq(g, n - 1, LOOP.pieces[1..], toks[k..]);
      SeqOne(g, n - 1, Ref("loop"), toks[k..]);
      LoopNever(n - 1, toks[k..]);
    }
  }

  /** At the start `a` is offered, and no token list beginning with it can ever be a whole match. */
  lemma OfferLeadsNowhere(fuel: nat, tail: seq<Token>)
    ensures
      var r := Match(DeadEnd(), fuel, DeadEnd().rules["start"], InitialContext("start", []), true);
      r.Found? && Word("a") in r.offered
    ensures !Derivable(DeadEnd(), DeadEnd().rules["start"], [Token("word", "a")] + tail)
  {
    var g, ms := DeadEnd(), [A, Ref("loop")];
    var c := InitialContext("start", []);
    assert Match(g, fuel, A, c, true) == Found([], {Word("a")});
    assert MatchEach(g, fuel, A, [c][1..], true) == Found([], {});
    assert MatchEach(g, fuel, A, [c], true) == Found([], {Word("a")});
    var whole := [Token("word", "a")] + tail;
    if Derivable(g, Series(ms), whole) {
      var n: nat :| Derives(g, n, Series(ms), whole);
      assert DerivesSeq(g, n, ms, whole);
      var k :| 0 <= k <= |whole| && Derives(g, n, ms[0], whole[..k]) && DerivesSeq(g, n, ms[1..], whole[k..]);
      SeqOne(g, n, Ref("loop"), whole[k..]);
      LoopNever(n, whole[k..]);
    }
  }
}
