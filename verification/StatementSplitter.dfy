/** Cutting a token stream into statements: newline-terminated commands, `;` and BEGIN..APPLY BATCH. */
module StatementSplitter {
  import opened Common

  datatype Kind = Endline | Endtoken | UnclosedPgString | Other(name: string)

  /** Positions in the text are left out: nothing here reads them. */
  datatype Token = Token(kind: Kind, text: string)

  type Statement = seq<Token>

  // ---- newline handling ----

  /** Where the massaging loop stands: before the first token of a statement or not, and whether the
      statement ends at a newline. */
  datatype Cursor = Cursor(atStart: bool, endsOnLine: bool)

  const START := Cursor(true, false)

  /** What becomes of one token: dropped ([]), retyped or kept. */
  function Kept(t: Token, c: Cursor): seq<Token> {
    if t.kind != Endline then [t] else if c.endsOnLine then [t.(kind := Endtoken)] else []
  }

  function Advance(t: Token, c: Cursor, commands: set<string>): Cursor {
    if Kept(t, c) == [] then c
    else if Kept(t, c)[0].kind == Endtoken then START
    else Cursor(false, if c.atStart then Lower(t.text) in commands else c.endsOnLine)
  }

  function Massage(ts: seq<Token>, c: Cursor, commands: set<string>): seq<Token>
    decreases |ts|
  {
    if ts == [] then [] else Kept(ts[0], c) + Massage(ts[1..], Advance(ts[0], c, commands), commands)
  }

  function After(ts: seq<Token>, c: Cursor, commands: set<string>): Cursor
    decreases |ts|
  {
    if ts == [] then c else After(ts[1..], Advance(ts[0], c, commands), commands)
  }

  lemma {:induction false} MassageJoin(a: seq<Token>, b: seq<Token>, c: Cursor, commands: set<string>)
    ensures After(a + b, c, commands) == After(b, After(a, c, commands), commands)
    ensures Massage(a + b, c, commands) == Massage(a, c, commands) + Massage(b, After(a, c, commands), commands)
    decreases |a|
  {
    if a == [] {
      assert a + b == b;
    } else {
      assert (a + b)[1..] == a[1..] + b;
      MassageJoin(a[1..], b, Advance(a[0], c, commands), commands);
    }
  }

  /** The loop is back at a statement start exactly when its output ends with an end token, or is
      still empty. */
  lemma {:induction false} MassageEnds(ts: seq<Token>, c: Cursor, commands: set<string>)
    ensures var out := Massage(ts, c, commands);
      && (out == [] ==> After(ts, c, commands) == c)
      && (out != [] && out[|out| - 1].kind == Endtoken ==> After(ts, c, commands) == START)
      && (out != [] && out[|out| - 1].kind != Endtoken ==> !After(ts, c, commands).atStart)
    decreases |ts|
  {
    if ts != [] {
      MassageEnds(ts[1..], Advance(ts[0], c, commands), commands);
    }
  }

  /** `out` is `ts` with each newline token either dropped or retyped and nothing else touched. */
  ghost predicate OnlyNewlinesTouched(ts: seq<Token>, out: seq<Token>)
    decreases |ts|
  {
    if ts == [] then out == []
    else if ts[0].kind == Endline then
      || OnlyNewlinesTouched(ts[1..], out)
      || (out != [] && out[0] == ts[0].(kind := Endtoken) && OnlyNewlinesTouched(ts[1..], out[1..]))
    else out != [] && out[0] == ts[0] && OnlyNewlinesTouched(ts[1..], out[1..])
  }

  lemma {:induction false} MassageKeepsTokens(ts: seq<Token>, c: Cursor, commands: set<string>)
    ensures OnlyNewlinesTouched(ts, Massage(ts, c, commands))
    ensures forall t :: t in Massage(ts, c, commands) ==> t.kind != Endline
    decreases |ts|
  {
    if ts != [] {
      var rest := Massage(ts[1..], Advance(ts[0], c, commands), commands);
      MassageKeepsTokens(ts[1..], Advance(ts[0], c, commands), commands);
      assert Kept(ts[0], c) != [] ==> (Kept(ts[0], c) + rest)[1..] == rest;
      assert Kept(ts[0], c) == [] ==> Kept(ts[0], c) + rest == rest;
    }
  }

  lemma MassageLast(ts: seq<Token>, t: Token, c: Cursor, commands: set<string>)
    ensures Massage(ts + [t], c, commands) == Massage(ts, c, commands) + Kept(t, After(ts, c, commands))
    ensures After(ts + [t], c, commands) == Advance(t, After(ts, c, commands), commands)
  {
    MassageJoin(ts, [t], c, commands);
    var d := After(ts, c, commands);
    assert Massage([t], d, commands) == Kept(t, d) + Massage([], Advance(t, d, commands), commands);
    assert After([t], d, commands) == After([], Advance(t, d, commands), commands);
  }

  /** What the loop has after the tokens `ts`. */
  ghost predicate Massaged(
    ts: seq<Token>, commands: set<string>, output: seq<Token>, curstmt: seq<Token>, termOnNl: bool)
  {
    && After(ts, START, commands) == Cursor(curstmt == [], termOnNl)
    && output + curstmt == Massage(ts, START, commands)
  }

  /** One more token `t`, dropped, or kept as `u`. */
  lemma MassageStep(
    ts: seq<Token>, commands: set<string>, output: seq<Token>, curstmt: seq<Token>, termOnNl: bool, t: Token, u: Token)
    requires Massaged(ts, commands, output, curstmt, termOnNl)
    requires u == if t.kind == Endline then t.(kind := Endtoken) else t
    ensures
      if t.kind == Endline && !termOnNl then Massaged(ts + [t], commands, output, curstmt, termOnNl)
      else if u.kind == Endtoken then Massaged(ts + [t], commands, output + (curstmt + [u]), [], false)
      else
        var term := if curstmt == [] then Lower(t.text) in commands else termOnNl;
        Massaged(ts + [t], commands, output, curstmt + [u], term)
  {
    MassageLast(ts, t, START, commands);
    Regroup(output, curstmt, [u]);
    var c := Cursor(curstmt == [], termOnNl);
    if t.kind == Endline && !termOnNl {
      assert Kept(t, c) == [] && output + curstmt + [] == output + curstmt;
    } else {
      assert Kept(t, c) == [u];
      assert output + (curstmt + [u]) + [] == output + (curstmt + [u]);
    }
  }

  method MassageTokens(toklist: seq<Token>, commands: set<string>) returns (output: seq<Token>)
    ensures output == Massage(toklist, START, commands)
  {
    var curstmt: seq<Token> := [];
    output := [];
    var termOnNl := false;
    for i := 0 to |toklist|
      invariant Massaged(toklist[..i], commands, output, curstmt, termOnNl)
    {
      var t := toklist[i];
      assert toklist[..i + 1] == toklist[..i] + [t];
      MassageStep(toklist[..i], commands, output, curstmt, termOnNl, t,
                  if t.kind == Endline then t.(kind := Endtoken) else t);
      if t.kind == Endline {
        if termOnNl {
          t := t.(kind := Endtoken);
        } else {
          continue;
        }
      }
      curstmt := curstmt + [t];
      if t.kind == Endtoken {
        termOnNl := false;
        output := output + curstmt;
        curstmt := [];
      } else if |curstmt| == 1 {
        termOnNl := Lower(t.text) in commands;
      }
    }
    output := output + curstmt;
    assert toklist[..|toklist|] == toklist;
  }

  // ---- split_list ----

  ghost predicate Clear<T>(piece: seq<T>, pred: T -> bool) {
    forall i :: 0 <= i < |piece| ==> !pred(piece[i])
  }

  /** `pieces` cut `items` after each element satisfying `pred` and nowhere else. */
  ghost predicate IsSplit<T>(items: seq<T>, pred: T -> bool, pieces: seq<seq<T>>) {
    && pieces != [] && Flatten(pieces) == items
    && Clear(pieces[|pieces| - 1], pred)
    && forall k :: 0 <= k < |pieces| - 1 ==> EndsAt(pieces[k], pred)
  }

  ghost predicate EndsAt<T>(piece: seq<T>, pred: T -> bool) {
    piece != [] && pred(piece[|piece| - 1]) && Clear(piece[..|piece| - 1], pred)
  }

  function SplitList<T>(items: seq<T>, pred: T -> bool): (pieces: seq<seq<T>>)
    ensures pieces != []
  {
    if items == [] then [[]]
    else
      var rest := SplitList(items[1..], pred);
      if pred(items[0]) then [[items[0]]] + rest else [[items[0]] + rest[0]] + rest[1..]
  }

  lemma SplitCons<T>(piece: seq<T>, items: seq<T>, pred: T -> bool, pieces: seq<seq<T>>)
    requires EndsAt(piece, pred) && IsSplit(items, pred, pieces)
    ensures IsSplit(piece + items, pred, [piece] + pieces)
  {
    var all := [piece] + pieces;
    assert all[1..] == pieces;
    assert forall k :: 1 <= k < |all| ==> all[k] == pieces[k - 1];
  }

  lemma SplitGrow<T>(x: T, items: seq<T>, pred: T -> bool, pieces: seq<seq<T>>)
    requires !pred(x) && IsSplit(items, pred, pieces)
    ensures IsSplit([x] + items, pred, [[x] + pieces[0]] + pieces[1..])
  {
    var first := [x] + pieces[0];
    var all := [first] + pieces[1..];
    assert all[1..] == pieces[1..];
    assert forall k :: 1 <= k < |all| ==> all[k] == pieces[k];
    assert first + Flatten(pieces[1..]) == [x] + items;
    if |pieces| > 1 {
      assert EndsAt(pieces[0], pred);
      assert first[..|first| - 1] == [x] + pieces[0][..|pieces[0]| - 1];
    }
  }

  lemma {:induction false} SplitListIsSplit<T>(items: seq<T>, pred: T -> bool)
    ensures IsSplit(items, pred, SplitList(items, pred))
  {
    if items == [] {
      assert Flatten<T>([[]]) == [] + Flatten<T>([]);
    } else {
      SplitListIsSplit(items[1..], pred);
      var rest := SplitList(items[1..], pred);
      assert [items[0]] + items[1..] == items;
      if pred(items[0]) {
        SplitCons([items[0]], items[1..], pred, rest);
      } else {
        SplitGrow(items[0], items[1..], pred, rest);
      }
    }
  }

  lemma {:induction false} SplitClear<T>(piece: seq<T>, pred: T -> bool)
    requires Clear(piece, pred)
    ensures SplitList(piece, pred) == [piece]
  {
    if piece != [] {
      SplitClear(piece[1..], pred);
      assert [piece[0]] + piece[1..] == piece;
    }
  }

  /** Cutting after a piece that ends at an element of `pred`. */
  lemma {:induction false} SplitPiece<T>(piece: seq<T>, rest: seq<T>, pred: T -> bool)
    requires EndsAt(piece, pred)
    ensures SplitList(piece + rest, pred) == [piece] + SplitList(rest, pred)
    decreases |piece|
  {
    assert (piece + rest)[1..] == piece[1..] + rest;
    if |piece| == 1 {
      assert piece[1..] + rest == rest;
      assert [piece[0]] == piece;
    } else {
      assert piece[1..][..|piece| - 2] == piece[..|piece| - 1][1..];
      assert !pred(piece[..|piece| - 1][0]);
      SplitPiece(piece[1..], rest, pred);
      assert [piece[0]] + piece[1..] == piece;
    }
  }

  /** There is only one way to cut. */
  lemma {:induction false} SplitUnique<T>(items: seq<T>, pred: T -> bool, pieces: seq<seq<T>>)
    ensures IsSplit(items, pred, pieces) <==> pieces == SplitList(items, pred)
    decreases |pieces|
  {
    SplitListIsSplit(items, pred);
    if IsSplit(items, pred, pieces) {
      if |pieces| == 1 {
        assert Flatten(pieces) == pieces[0] + Flatten(pieces[1..]) == pieces[0];
        SplitClear(items, pred);
        assert pieces == [pieces[0]];
      } else {
        var rest := Flatten(pieces[1..]);
        assert IsSplit(rest, pred, pieces[1..]);
        SplitUnique(rest, pred, pieces[1..]);
        SplitPiece(pieces[0], rest, pred);
        assert pieces == [pieces[0]] + pieces[1..];
      }
    }
  }

  lemma JoinEnd<T>(x: T, rest: seq<seq<T>>, tail: seq<seq<T>>)
    requires rest != []
    ensures var m, all := |rest| - 1, [[x]] + rest;
      |all| == m + 2 && all[m + 1] == rest[m] && [[x]] + (rest[..m] + tail) == all[..m + 1] + tail
  {
  }

  lemma JoinGrow<T>(x: T, rest: seq<seq<T>>, tail: seq<seq<T>>)
    requires |rest| > 1
    ensures var m, all := |rest| - 1, [[x] + rest[0]] + rest[1..];
      var both := rest[..m] + tail;
      |all| == m + 1 && all[m] == rest[m] && [[x] + both[0]] + both[1..] == all[..m] + tail
  {
  }

  /** Items that end at an element of `pred` do not influence how what follows is cut. */
  lemma {:induction false} SplitJoin<T>(a: seq<T>, b: seq<T>, pred: T -> bool)
    requires a == [] || pred(a[|a| - 1])
    ensures a != [] ==> |SplitList(a, pred)| > 1
    ensures SplitList(a, pred)[|SplitList(a, pred)| - 1] == []
    ensures SplitList(a + b, pred) == SplitList(a, pred)[..|SplitList(a, pred)| - 1] + SplitList(b, pred)
  {
    if a == [] {
      assert a + b == b;
    } else {
      SplitJoin(a[1..], b, pred);
      assert (a + b)[0] == a[0] && (a + b)[1..] == a[1..] + b;
      if pred(a[0]) {
        SplitHead(a, pred);
        SplitHead(a + b, pred);
        JoinEnd(a[0], SplitList(a[1..], pred), SplitList(b, pred));
      } else {
        assert a[1..] != [];
        SplitHead(a, pred);
        SplitHead(a + b, pred);
        JoinGrow(a[0], SplitList(a[1..], pred), SplitList(b, pred));
      }
    }
  }

  lemma SplitHead<T>(a: seq<T>, pred: T -> bool)
    requires a != []
    ensures var rest := SplitList(a[1..], pred);
      SplitList(a, pred) == if pred(a[0]) then [[a[0]]] + rest else [[a[0]] + rest[0]] + rest[1..]
  {
  }

  /** The finished pieces and the current one cut `items` so far. */
  ghost predicate Cutting<T>(items: seq<T>, pred: T -> bool, results: seq<seq<T>>, thisresult: seq<T>) {
    && Clear(thisresult, pred) && Flatten(results) + thisresult == items
    && forall k :: 0 <= k < |results| ==> EndsAt(results[k], pred)
  }

  lemma CuttingStep<T>(items: seq<T>, pred: T -> bool, results: seq<seq<T>>, thisresult: seq<T>, x: T)
    requires Cutting(items, pred, results, thisresult)
    ensures if pred(x) then Cutting(items + [x], pred, results + [thisresult + [x]], [])
            else Cutting(items + [x], pred, results, thisresult + [x])
  {
    Regroup(Flatten(results), thisresult, [x]);
    if pred(x) {
      var piece := thisresult + [x];
      assert piece[..|piece| - 1] == thisresult;
      FlattenSnoc(results, piece);
    }
  }

  lemma CuttingDone<T>(items: seq<T>, pred: T -> bool, results: seq<seq<T>>, thisresult: seq<T>)
    requires Cutting(items, pred, results, thisresult)
    ensures results + [thisresult] == SplitList(items, pred)
  {
    FlattenSnoc(results, thisresult);
    SplitUnique(items, pred, results + [thisresult]);
  }

  method SplitListLoop<T>(items: seq<T>, pred: T -> bool) returns (results: seq<seq<T>>)
    ensures results == SplitList(items, pred)
  {
    var thisresult: seq<T> := [];
    results := [];
    for i := 0 to |items|
      invariant Cutting(items[..i], pred, results, thisresult)
    {
      CuttingStep(items[..i], pred, results, thisresult, items[i]);
      assert items[..i + 1] == items[..i] + [items[i]];
      thisresult := thisresult + [items[i]];
      if pred(items[i]) {
        results := results + [thisresult];
        thisresult := [];
      }
    }
    assert items[..|items|] == items;
    CuttingDone(items, pred, results, thisresult);
    results := results + [thisresult];
  }

  // ---- which newlines end a statement ----

  /** The tokens after the last end token. */
  function OpenStatement(tokens: seq<Token>): Statement {
    var pieces := SplitList(tokens, IsEnd);
    pieces[|pieces| - 1]
  }

  lemma OpenSnoc(tokens: seq<Token>, t: Token)
    ensures OpenStatement(tokens + [t]) == if t.kind == Endtoken then [] else OpenStatement(tokens) + [t]
  {
    var pieces, cur := SplitList(tokens, IsEnd), OpenStatement(tokens);
    var done := pieces[..|pieces| - 1];
    assert pieces == done + [cur];
    SplitListIsSplit(tokens, IsEnd);
    FlattenSnoc(done, cur);
    CuttingStep(tokens, IsEnd, done, cur, t);
    if IsEnd(t) {
      CuttingDone(tokens + [t], IsEnd, done + [cur + [t]], []);
    } else {
      CuttingDone(tokens + [t], IsEnd, done, cur + [t]);
    }
  }

  /** One of the commands, in any ASCII case. */
  ghost predicate IsCommand(word: string, commands: set<string>) {
    exists c :: c in commands && NoCapitals(c) && SameLetters(word, c)
  }

  lemma CommandLower(word: string, commands: set<string>)
    ensures Lower(word) in commands <==> IsCommand(word, commands)
  {
    LowerIs(word, Lower(word));
    if c :| c in commands && NoCapitals(c) && SameLetters(word, c) { LowerIs(word, c); }
  }

  /** A newline ends the statement that starts with one of the commands. */
  ghost predicate LineEnds(stmt: Statement, commands: set<string>) {
    stmt != [] && IsCommand(stmt[0].text, commands)
  }

  lemma {:induction false} CursorIs(ts: seq<Token>, commands: set<string>)
    ensures var cur := OpenStatement(Massage(ts, START, commands));
      After(ts, START, commands) == Cursor(cur == [], LineEnds(cur, commands))
    decreases |ts|
  {
    if ts != [] {
      var init, t := ts[..|ts| - 1], ts[|ts| - 1];
      assert ts == init + [t];
      CursorIs(init, commands);
      MassageLast(init, t, START, commands);
      CommandLower(t.text, commands);
      var kept := Kept(t, After(init, START, commands));
      if kept == [] {
        assert Massage(init, START, commands) + kept == Massage(init, START, commands);
      } else {
        assert kept == [kept[0]];
        OpenSnoc(Massage(init, START, commands), kept[0]);
      }
    }
  }

  /** Token by token: a newline becomes an end token if the statement so far starts with one of the
      commands that end with a newline, and is dropped otherwise; every other token is kept. */
  lemma NewlinesExact(ts: seq<Token>, t: Token, commands: set<string>)
    ensures
      var out := Massage(ts, START, commands);
      Massage(ts + [t], START, commands) ==
        if t.kind != Endline then out + [t]
        else if LineEnds(OpenStatement(out), commands) then out + [Token(Endtoken, t.text)]
        else out
  {
    CursorIs(ts, commands);
    MassageLast(ts, t, START, commands);
    var out := Massage(ts, START, commands);
    assert out + [] == out;
  }

  // ---- batches ----

  predicate Closes(stmt: Statement) {
    |stmt| > 2 && Upper(stmt[|stmt| - 3].text) == "APPLY"
  }

  predicate Opens(stmt: Statement) {
    |stmt| > 2 && Upper(stmt[|stmt| - 3].text) != "APPLY" && Upper(stmt[0].text) == "BEGIN"
  }

  function BatchAfter(inBatch: bool, stmt: Statement): bool {
    if Closes(stmt) then false else if Opens(stmt) then true else inBatch
  }

  datatype Grouping = Grouping(output: seq<Statement>, inBatch: bool)

  function AddPiece(g: Grouping, stmt: Statement): Grouping {
    var n := |g.output|;
    Grouping(if g.inBatch && n > 0 then g.output[..n - 1] + [g.output[n - 1] + stmt] else g.output + [stmt],
             BatchAfter(g.inBatch, stmt))
  }

  function Group(g: Grouping, stmts: seq<Statement>): Grouping
    decreases |stmts|
  {
    if stmts == [] then g else Group(AddPiece(g, stmts[0]), stmts[1..])
  }

  lemma {:induction false} GroupJoin(g: Grouping, a: seq<Statement>, b: seq<Statement>)
    ensures Group(g, a + b) == Group(Group(g, a), b)
    decreases |a|
  {
    if a == [] {
      assert a + b == b;
    } else {
      assert (a + b)[1..] == a[1..] + b;
      GroupJoin(AddPiece(g, a[0]), a[1..], b);
    }
  }

  lemma GroupLast(g: Grouping, stmts: seq<Statement>, s: Statement)
    ensures Group(g, stmts + [s]) == AddPiece(Group(g, stmts), s)
  {
    GroupJoin(g, stmts, [s]);
    var h := Group(g, stmts);
    assert Group(h, [s]) == Group(AddPiece(h, s), []) == AddPiece(h, s);
  }

  /** Finished groups are not touched again. */
  lemma {:induction false} GroupShift(done: seq<Statement>, g: Grouping, stmts: seq<Statement>)
    requires g.inBatch ==> g.output != []
    ensures Group(Grouping(done + g.output, g.inBatch), stmts) ==
        Grouping(done + Group(g, stmts).output, Group(g, stmts).inBatch)
    decreases |stmts|
  {
    if stmts != [] {
      var h := AddPiece(g, stmts[0]);
      assert AddPiece(Grouping(done + g.output, g.inBatch), stmts[0]) == Grouping(done + h.output, h.inBatch);
      GroupShift(done, h, stmts[1..]);
    }
  }

  /** Grouping neither drops nor reorders tokens. */
  lemma {:induction false} GroupKeepsTokens(g: Grouping, stmts: seq<Statement>)
    ensures Flatten(Group(g, stmts).output) == Flatten(g.output) + Flatten(stmts)
    decreases |stmts|
  {
    if stmts != [] {
      var h := AddPiece(g, stmts[0]);
      if g.inBatch && g.output != [] {
        FlattenGrow(g.output, stmts[0]);
      } else {
        FlattenSnoc(g.output, stmts[0]);
      }
      GroupKeepsTokens(h, stmts[1..]);
      Regroup(Flatten(g.output), stmts[0], Flatten(stmts[1..]));
    }
  }

  /** One statement of the output: a piece that opens no batch, or a piece that opens one, pieces that
      do not close it, and the closing piece. */
  ghost predicate IsGroup(pieces: seq<Statement>) {
    && pieces != []
    && (Opens(pieces[0]) <==> |pieces| > 1)
    && (forall k :: 1 <= k < |pieces| - 1 ==> !Closes(pieces[k]))
    && (|pieces| > 1 ==> Closes(pieces[|pieces| - 1]))
  }

  /** A batch whose closing piece is still to come. */
  ghost predicate IsOpenGroup(pieces: seq<Statement>) {
    && pieces != [] && Opens(pieces[0])
    && (forall k :: 1 <= k < |pieces| ==> !Closes(pieces[k]))
  }

  ghost predicate IsGrouping(groups: seq<seq<Statement>>, inBatch: bool) {
    && (inBatch ==> groups != [] && IsOpenGroup(groups[|groups| - 1]))
    && forall k :: 0 <= k < |groups| - (if inBatch then 1 else 0) ==> IsGroup(groups[k])
  }

  function Joined(groups: seq<seq<Statement>>): seq<Statement> {
    seq(|groups|, k requires 0 <= k < |groups| => Flatten(groups[k]))
  }

  function AddMember(groups: seq<seq<Statement>>, inBatch: bool, s: Statement): (more: seq<seq<Statement>>)
    ensures more != []
  {
    var n := |groups|;
    if inBatch && n > 0 then groups[..n - 1] + [groups[n - 1] + [s]] else groups + [[s]]
  }

  /** The pieces of each output statement, one list per statement. */
  ghost function Members(groups: seq<seq<Statement>>, inBatch: bool, stmts: seq<Statement>): seq<seq<Statement>>
    decreases |stmts|
  {
    if stmts == [] then groups else Members(AddMember(groups, inBatch, stmts[0]), BatchAfter(inBatch, stmts[0]),
        stmts[1..])
  }

  lemma MemberGrouped(groups: seq<seq<Statement>>, inBatch: bool, s: Statement)
    requires IsGrouping(groups, inBatch)
    ensures IsGrouping(AddMember(groups, inBatch, s), BatchAfter(inBatch, s))
  {
    var n, more := |groups|, AddMember(groups, inBatch, s);
    assert forall k :: 0 <= k < |more| - 1 ==> more[k] == groups[k];
    if inBatch {
      var last, now := groups[n - 1], more[n - 1];
      assert now[0] == last[0] && now[|now| - 1] == s;
      assert forall k :: 1 <= k < |now| - 1 ==> now[k] == last[k];
    }
  }

  lemma MemberJoined(groups: seq<seq<Statement>>, inBatch: bool, s: Statement)
    ensures AddPiece(Grouping(Joined(groups), inBatch), s).output == Joined(AddMember(groups, inBatch, s))
  {
    var n, more := |groups|, AddMember(groups, inBatch, s);
    assert Flatten([s]) == s + Flatten([]) == s;
    assert forall k :: 0 <= k < |more| - 1 ==> more[k] == groups[k];
    if inBatch && n > 0 {
      FlattenJoin(groups[n - 1], [s]);
    }
  }

  lemma MemberCounted(groups: seq<seq<Statement>>, inBatch: bool, s: Statement)
    ensures Flatten(AddMember(groups, inBatch, s)) == Flatten(groups) + [s]
  {
    var n := |groups|;
    if inBatch && n > 0 {
      var last := groups[n - 1];
      assert groups == groups[..n - 1] + [last];
      FlattenJoin(groups[..n - 1], [last]);
      FlattenJoin(groups[..n - 1], [last + [s]]);
      assert Flatten([last]) == last + Flatten([]) == last;
      assert Flatten([last + [s]]) == last + [s] + Flatten([]) == last + [s];
    } else {
      FlattenJoin(groups, [[s]]);
      assert Flatten([[s]]) == [s] + Flatten([]) == [s];
    }
  }

  lemma {:induction false} MembersGrouped(groups: seq<seq<Statement>>, g: Grouping, stmts: seq<Statement>)
    requires IsGrouping(groups, g.inBatch)
    ensures IsGrouping(Members(groups, g.inBatch, stmts), Group(g, stmts).inBatch)
    decreases |stmts|
  {
    if stmts != [] {
      MemberGrouped(groups, g.inBatch, stmts[0]);
      MembersGrouped(AddMember(groups, g.inBatch, stmts[0]), AddPiece(g, stmts[0]), stmts[1..]);
    }
  }

  lemma {:induction false} MembersJoined(groups: seq<seq<Statement>>, inBatch: bool, stmts: seq<Statement>)
    ensures Group(Grouping(Joined(groups), inBatch), stmts).output == Joined(Members(groups, inBatch, stmts))
    decreases |stmts|
  {
    if stmts != [] {
      MemberJoined(groups, inBatch, stmts[0]);
      MembersJoined(AddMember(groups, inBatch, stmts[0]), BatchAfter(inBatch, stmts[0]), stmts[1..]);
    }
  }

  lemma {:induction false} MembersCounted(groups: seq<seq<Statement>>, inBatch: bool, stmts: seq<Statement>)
    ensures Flatten(Members(groups, inBatch, stmts)) == Flatten(groups) + stmts
    decreases |stmts|
  {
    if stmts != [] {
      MemberCounted(groups, inBatch, stmts[0]);
      MembersCounted(AddMember(groups, inBatch, stmts[0]), BatchAfter(inBatch, stmts[0]), stmts[1..]);
      assert Flatten(groups) + [stmts[0]] + stmts[1..] == Flatten(groups) + stmts;
    }
  }

  /** Every statement handed out is exactly one command or one BEGIN..APPLY BATCH group; the last one
      may be a batch still open, and that is what the flag says. */
  lemma GroupsAreBatches(stmts: seq<Statement>)
    ensures var g := Group(Grouping([], false), stmts);
      exists groups :: IsGrouping(groups, g.inBatch) && g.output == Joined(groups) && Flatten(groups) == stmts
  {
    var groups := Members([], false, stmts);
    assert Joined([]) == [];
    MembersGrouped([], Grouping([], false), stmts);
    MembersJoined([], false, stmts);
    MembersCounted([], false, stmts);
    assert Flatten<Statement>([]) + stmts == stmts;
  }

  /** A piece with the given word, in any ASCII case, third from its end. */
  ghost predicate Applies(stmt: Statement) {
    |stmt| > 2 && SameLetters(stmt[|stmt| - 3].text, "APPLY")
  }

  ghost predicate Begins(stmt: Statement) {
    |stmt| > 2 && SameLetters(stmt[0].text, "BEGIN") && !Applies(stmt)
  }

  lemma PieceIs(stmt: Statement)
    ensures Closes(stmt) <==> Applies(stmt)
    ensures Opens(stmt) <==> Begins(stmt)
  {
    if |stmt| > 2 {
      UpperIs(stmt[|stmt| - 3].text, "APPLY");
      UpperIs(stmt[0].text, "BEGIN");
    }
  }

  /** After a piece that begins a batch, pieces that do not close it go to the same statement. */
  lemma {:induction false} BatchGrows(first: Statement, inner: seq<Statement>)
    requires Begins(first) && forall k :: 0 <= k < |inner| ==> !Applies(inner[k])
    ensures Group(Grouping([], false), [first] + inner) == Grouping([Flatten([first] + inner)], true)
    decreases |inner|
  {
    var none := Grouping([], false);
    if inner == [] {
      assert [first] + inner == [] + [first];
      GroupLast(none, [], first);
      PieceIs(first);
      assert Flatten([first]) == first + Flatten([]) == first;
    } else {
      var init, last := inner[..|inner| - 1], inner[|inner| - 1];
      assert [first] + inner == ([first] + init) + [last];
      BatchGrows(first, init);
      GroupLast(none, [first] + init, last);
      PieceIs(last);
      FlattenSnoc([first] + init, last);
    }
  }

  /** Whatever stands between BEGIN and APPLY, in any letter case, the batch is one group, open
      until the piece with APPLY. */
  lemma BatchGroup(first: Statement, inner: seq<Statement>, close: Statement)
    requires Begins(first) && Applies(close) && forall k :: 0 <= k < |inner| ==> !Applies(inner[k])
    ensures
      var pieces := [first] + inner + [close];
      Group(Grouping([], false), pieces) == Grouping([Flatten(pieces)], false)
  {
    BatchGrows(first, inner);
    GroupLast(Grouping([], false), [first] + inner, close);
    PieceIs(close);
    FlattenSnoc([first] + inner, close);
  }

  // ---- cql_split_statements after lexing ----

  predicate IsEnd(t: Token) {
    t.kind == Endtoken
  }

  function UnclosedCount(ts: seq<Token>): nat {
    if ts == [] then 0 else (if ts[0].kind == UnclosedPgString then 1 else 0) + UnclosedCount(ts[1..])
  }

  /** The statements of a token list. */
  function Statements(ts: seq<Token>, commands: set<string>): seq<Statement> {
    Group(Grouping([], false), SplitList(Massage(ts, START, commands), IsEnd)).output
  }

  /** Whether the last statement still waits for more input although it may end with an end token. */
  function Escaped(ts: seq<Token>, commands: set<string>): bool {
    || Group(Grouping([], false), SplitList(Massage(ts, START, commands), IsEnd)).inBatch
    || UnclosedCount(Massage(ts, START, commands)) == 1
  }

  lemma {:induction false} SplitPieces(pieces: seq<Statement>, pred: Token -> bool)
    requires forall k :: 0 <= k < |pieces| ==> EndsAt(pieces[k], pred)
    ensures SplitList(Flatten(pieces), pred) == pieces + [[]]
  {
    if pieces != [] {
      SplitPieces(pieces[1..], pred);
      SplitPiece(pieces[0], Flatten(pieces[1..]), pred);
      assert pieces + [[]] == [pieces[0]] + (pieces[1..] + [[]]);
    }
  }

  /** A piece begins a batch and none behind it applies it. */
  ghost predicate BatchOpen(pieces: seq<Statement>) {
    exists k :: 0 <= k < |pieces| && Begins(pieces[k]) && forall j :: k < j < |pieces| ==> !Applies(pieces[j])
  }

  lemma OpenPieces(pieces: seq<Statement>, s: Statement)
    ensures BatchOpen(pieces + [s]) <==> Begins(s) || (BatchOpen(pieces) && !Applies(s))
  {
    var more := pieces + [s];
    assert more[|pieces|] == s && forall j :: 0 <= j < |pieces| ==> more[j] == pieces[j];
    if BatchOpen(pieces) && !Applies(s) {
      var k :| 0 <= k < |pieces| && Begins(pieces[k]) && forall j :: k < j < |pieces| ==> !Applies(pieces[j]);
      assert Begins(more[k]) && forall j :: k < j < |more| ==> !Applies(more[j]);
    }
    if Begins(s) { assert Begins(more[|pieces|]); }
    if BatchOpen(more) && !Begins(s) {
      var k :| 0 <= k < |more| && Begins(more[k]) && forall j :: k < j < |more| ==> !Applies(more[j]);
      assert Begins(pieces[k]) && forall j :: k < j < |pieces| ==> !Applies(more[j]);
    }
  }

  lemma {:induction false} FlagIsOpen(pieces: seq<Statement>)
    ensures Group(Grouping([], false), pieces).inBatch <==> BatchOpen(pieces)
    decreases |pieces|
  {
    if pieces != [] {
      var init, last := pieces[..|pieces| - 1], pieces[|pieces| - 1];
      assert pieces == init + [last];
      FlagIsOpen(init);
      GroupLast(Grouping([], false), init, last);
      PieceIs(last);
      OpenPieces(init, last);
    }
  }

  /** Only the token at `i` starts a string between double dollars that is not closed. */
  ghost predicate UnclosedAt(ts: seq<Token>, i: int) {
    && 0 <= i < |ts| && ts[i].kind == UnclosedPgString
    && forall j :: 0 <= j < |ts| && j != i ==> ts[j].kind != UnclosedPgString
  }

  ghost predicate OneUnclosed(ts: seq<Token>) {
    exists i :: UnclosedAt(ts, i)
  }

  lemma {:induction false} NoneUnclosed(ts: seq<Token>)
    ensures UnclosedCount(ts) == 0 <==> forall i :: 0 <= i < |ts| ==> ts[i].kind != UnclosedPgString
  {
    if ts != [] {
      NoneUnclosed(ts[1..]);
      assert forall i :: 1 <= i < |ts| ==> ts[i] == ts[1..][i - 1];
    }
  }

  lemma UnclosedTail(ts: seq<Token>, i: int)
    requires ts != [] && ts[0].kind != UnclosedPgString
    ensures UnclosedAt(ts, i) <==> UnclosedAt(ts[1..], i - 1)
  {
    assert forall j :: 1 <= j < |ts| ==> ts[j] == ts[1..][j - 1];
    assert forall j :: 0 <= j < |ts[1..]| ==> ts[1..][j] == ts[j + 1];
  }

  lemma {:induction false} CountIsOne(ts: seq<Token>)
    ensures UnclosedCount(ts) == 1 <==> OneUnclosed(ts)
  {
    if ts != [] && ts[0].kind == UnclosedPgString {
      NoneUnclosed(ts[1..]);
      assert forall j :: 1 <= j < |ts| ==> ts[j] == ts[1..][j - 1];
      assert UnclosedCount(ts) == 1 <==> UnclosedAt(ts, 0);
    } else if ts != [] {
      CountIsOne(ts[1..]);
      if i :| UnclosedAt(ts[1..], i) { UnclosedTail(ts, i + 1); }
      if i :| UnclosedAt(ts, i) { UnclosedTail(ts, i); }
    }
  }

  /** The last statement waits for more exactly when a batch is open or one string is. */
  lemma EscapedExact(ts: seq<Token>, commands: set<string>)
    ensures
      var out := Massage(ts, START, commands);
      Escaped(ts, commands) <==> BatchOpen(SplitList(out, IsEnd)) || OneUnclosed(out)
  {
    var out := Massage(ts, START, commands);
    FlagIsOpen(SplitList(out, IsEnd));
    CountIsOne(out);
  }

  /** A batch is one statement: BEGIN in any letter case, any pieces that do not end in APPLY and
      two more tokens, and APPLY in any letter case. Without the last piece it is still open. */
  lemma BatchIsOneStatement(ts: seq<Token>, commands: set<string>, first: Statement, inner: seq<Statement>,
      close: Statement)
    requires Begins(first) && Applies(close) && forall k :: 0 <= k < |inner| ==> !Applies(inner[k])
    requires EndsAt(first, IsEnd) && EndsAt(close, IsEnd) && forall k :: 0 <= k < |inner| ==> EndsAt(inner[k], IsEnd)
    ensures
      var whole := Flatten([first] + inner + [close]);
      Massage(ts, START, commands) == whole ==> Statements(ts, commands) == [whole, []]
    ensures
      var open := Flatten([first] + inner);
      Massage(ts, START, commands) == open ==> Statements(ts, commands) == [open] && Escaped(ts, commands)
  {
    var none, open := Grouping([], false), [first] + inner;
    var pieces := open + [close];
    assert forall k :: 0 <= k < |pieces| ==> EndsAt(pieces[k], IsEnd);
    SplitPieces(open, IsEnd);
    SplitPieces(pieces, IsEnd);
    BatchGrows(first, inner);
    GroupLast(none, open, []);
    assert Flatten(open) + [] == Flatten(open);
    BatchGroup(first, inner, close);
    GroupLast(none, pieces, []);
  }

  /** Any other piece is a statement by itself. */
  lemma PieceIsOneStatement(ts: seq<Token>, commands: set<string>, stmt: Statement)
    requires !Begins(stmt) && EndsAt(stmt, IsEnd) && Massage(ts, START, commands) == stmt
    ensures Statements(ts, commands) == [stmt, []]
  {
    var none := Grouping([], false);
    SplitPieces([stmt], IsEnd);
    assert Flatten([stmt]) == stmt + Flatten([]) == stmt;
    PieceIs(stmt);
    GroupLast(none, [], stmt);
    assert [] + [stmt] == [stmt];
    GroupLast(none, [stmt], []);
  }

  /** No token is lost or reordered. */
  lemma StatementsKeepTokens(ts: seq<Token>, commands: set<string>)
    ensures Flatten(Statements(ts, commands)) == Massage(ts, START, commands)
    ensures OnlyNewlinesTouched(ts, Flatten(Statements(ts, commands)))
  {
    var tokens := Massage(ts, START, commands);
    MassageKeepsTokens(ts, START, commands);
    SplitListIsSplit(tokens, IsEnd);
    GroupKeepsTokens(Grouping([], false), SplitList(tokens, IsEnd));
  }

  /** The empty piece at the end only adds an empty statement. */
  lemma GroupInit(g: Grouping, pieces: seq<Statement>)
    requires pieces != [] && pieces[|pieces| - 1] == []
    ensures var h := Group(g, pieces[..|pieces| - 1]);
      Group(g, pieces).inBatch == h.inBatch && (!h.inBatch ==> Group(g, pieces).output == h.output + [[]])
  {
    var init := pieces[..|pieces| - 1];
    var h := Group(g, init);
    assert pieces == init + [[]];
    GroupLast(g, init, []);
  }

  /** Pieces that leave no batch open do not influence the grouping of what follows. */
  lemma GroupContinues(pieces: seq<Statement>, more: seq<Statement>)
    requires pieces != [] && pieces[|pieces| - 1] == []
    requires !Group(Grouping([], false), pieces).inBatch
    ensures var out := Group(Grouping([], false), pieces).output;
      && out != []
      && Group(Grouping([], false), pieces[..|pieces| - 1] + more).output ==
          out[..|out| - 1] + Group(Grouping([], false), more).output
  {
    var none := Grouping([], false);
    var init := pieces[..|pieces| - 1];
    GroupInit(none, pieces);
    GroupJoin(none, init, more);
    var g := Group(none, init);
    GroupShift(g.output, none, more);
    assert g.output + [] == g.output;
  }

  /** Token lists that leave nothing open do not influence how what follows is cut. */
  lemma StatementsJoin(a: seq<Token>, b: seq<Token>, commands: set<string>)
    requires var m := Massage(a, START, commands); m == [] || m[|m| - 1].kind == Endtoken
    requires !Escaped(a, commands)
    ensures var out := Statements(a, commands);
      out != [] && Statements(a + b, commands) == out[..|out| - 1] + Statements(b, commands)
  {
    var m, n := Massage(a, START, commands), Massage(b, START, commands);
    MassageJoin(a, b, START, commands);
    MassageEnds(a, START, commands);
    assert Massage(a + b, START, commands) == m + n;
    SplitJoin(m, n, IsEnd);
    GroupContinues(SplitList(m, IsEnd), SplitList(n, IsEnd));
  }

  lemma {:induction false} NoEmpties(g: Grouping, stmts: seq<Statement>)
    requires forall k :: 0 <= k < |stmts| ==> stmts[k] != []
    requires forall k :: 0 <= k < |g.output| ==> g.output[k] != []
    ensures forall k :: 0 <= k < |Group(g, stmts).output| ==> Group(g, stmts).output[k] != []
    decreases |stmts|
  {
    if stmts != [] {
      NoEmpties(AddPiece(g, stmts[0]), stmts[1..]);
    }
  }

  /** Of such token lists only the last statement is empty. */
  lemma CompletePieces(a: seq<Token>, commands: set<string>)
    requires var m := Massage(a, START, commands); m == [] || m[|m| - 1].kind == Endtoken
    requires !Escaped(a, commands)
    ensures var out := Statements(a, commands);
      out != [] && out[|out| - 1] == [] && forall k :: 0 <= k < |out| - 1 ==> out[k] != []
  {
    var m := Massage(a, START, commands);
    SplitJoin(m, [], IsEnd);
    SplitListIsSplit(m, IsEnd);
    GroupPieces(SplitList(m, IsEnd));
  }

  lemma GroupPieces(pieces: seq<Statement>)
    requires pieces != [] && pieces[|pieces| - 1] == []
    requires forall k :: 0 <= k < |pieces| - 1 ==> pieces[k] != []
    ensures var g := Group(Grouping([], false), pieces);
      !g.inBatch ==> g.output != [] && g.output[|g.output| - 1] == [] && forall k :: 0 <= k < |g.output| - 1 ==>
          g.output[k] != []
  {
    GroupInit(Grouping([], false), pieces);
    NoEmpties(Grouping([], false), pieces[..|pieces| - 1]);
  }

  lemma {:induction false} CountLast(ts: seq<Token>, t: Token)
    ensures UnclosedCount(ts + [t]) == UnclosedCount(ts) + if t.kind == UnclosedPgString then 1 else 0
  {
    if ts == [] {
      assert ts + [t] == [t];
    } else {
      assert (ts + [t])[1..] == ts[1..] + [t];
      CountLast(ts[1..], t);
    }
  }

  method CountUnclosed(tokens: seq<Token>) returns (n: nat)
    ensures n == UnclosedCount(tokens)
  {
    n := 0;
    for i := 0 to |tokens|
      invariant n == UnclosedCount(tokens[..i])
    {
      CountLast(tokens[..i], tokens[i]);
      assert tokens[..i + 1] == tokens[..i] + [tokens[i]];
      if tokens[i].kind == UnclosedPgString {
        n := n + 1;
      }
    }
    assert tokens[..|tokens|] == tokens;
  }

  method GroupLoop(stmts: seq<Statement>) returns (output: seq<Statement>, inBatch: bool)
    ensures Grouping(output, inBatch) == Group(Grouping([], false), stmts)
  {
    output := [];
    inBatch := false;
    for i := 0 to |stmts|
      invariant inBatch ==> output != []
      invariant Grouping(output, inBatch) == Group(Grouping([], false), stmts[..i])
    {
      var stmt := stmts[i];
      GroupLast(Grouping([], false), stmts[..i], stmt);
      assert stmts[..i + 1] == stmts[..i] + [stmt];
      ghost var after := AddPiece(Grouping(output, inBatch), stmt);
      if inBatch {
        output := output[..|output| - 1] + [output[|output| - 1] + stmt];
      } else {
        output := output + [stmt];
      }
      assert output == after.output;
      if |stmt| > 2 {
        if Upper(stmt[|stmt| - 3].text) == "APPLY" {
          inBatch := false;
        } else if Upper(stmt[0].text) == "BEGIN" {
          inBatch := true;
        }
      }
    }
    assert stmts[..|stmts|] == stmts;
  }

  method SplitStatements(toklist: seq<Token>, commands: set<string>) returns (output: seq<Statement>, escaped: bool)
    ensures output == Statements(toklist, commands)
    ensures escaped == Escaped(toklist, commands)
  {
    var tokens := MassageTokens(toklist, commands);
    var stmts := SplitListLoop(tokens, IsEnd);
    var unclosed := CountUnclosed(tokens);
    var inBatch;
    output, inBatch := GroupLoop(stmts);
    escaped := inBatch || unclosed == 1;
  }
}
