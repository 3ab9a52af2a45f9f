/** CqlType.parse: type strings such as `map<text, frozen<list<int>>>` and user types looked up in the
    keyspace. A type string that refers to user types is parsed with fuel, one unit for each user type
    opened inside another; None means that the fuel ran out.
 */
module TypeStrings {
  import opened Common
  import opened CqlText

  /** A type as written, and as parsed: frozen<> gone and user types opened. */
  datatype Written = Written(name: string, args: seq<Written>)

  datatype CqlType = CqlType(name: string, subTypes: seq<CqlType>, isUser: bool)

  // ---- printing ----

  function Show(t: Written): string
    decreases t, 1
  {
    if t.args == [] then t.name else t.name + ("<" + Join(ShowArgs(t)) + ">")
  }

  function ShowArgs(t: Written): seq<string>
    decreases t, 0
  {
    seq(|t.args|, i requires 0 <= i < |t.args| => Show(t.args[i]))
  }

  // ---- parsing ----

  /** The pieces of `s` between commas that lie in no angle brackets. */
  function Pieces(s: string, level: int, cur: string): (pieces: seq<string>)
    ensures pieces != []
    decreases |s|
  {
    if s == "" then [cur]
    else if s[0] == ',' && level == 0 then [cur] + Pieces(s[1..], level, "")
    else Pieces(s[1..], LevelAfter(s[0], level), cur + [s[0]])
  }

  function LevelAfter(c: char, level: int): int {
    if c == '<' then level + 1 else if c == '>' then level - 1 else level
  }

  /** A last piece of fewer than two characters is not used. */
  function DropShortLast(pieces: seq<string>): seq<string> {
    if pieces != [] && |pieces[|pieces| - 1]| < 2 then pieces[..|pieces| - 1] else pieces
  }

  function SubStrings(val: string): seq<string> {
    var pieces := DropShortLast(Pieces(val, 0, ""));
    seq(|pieces|, i requires 0 <= i < |pieces| => Strip(pieces[i]))
  }

  /** The position of the first `<`, or the length. */
  function FirstOpen(s: string): (i: nat)
    ensures i <= |s| && (i < |s| ==> s[i] == '<')
    ensures forall k :: 0 <= k < i ==> s[k] != '<'
  {
    if s == "" || s[0] == '<' then 0 else 1 + FirstOpen(s[1..])
  }

  /** The pattern *<*>. */
  predicate IsComposite(s: string) {
    FirstOpen(s) < |s| && s[|s| - 1] == '>'
  }

  function Inner(s: string): string
    requires IsComposite(s)
  {
    s[FirstOpen(s) + 1..|s| - 1]
  }

  lemma {:induction false} PiecesShort(s: string, level: int, cur: string)
    ensures forall p :: p in Pieces(s, level, cur) ==> |p| <= |cur| + |s|
    decreases |s|
  {
    if s != "" {
      if s[0] == ',' && level == 0 {
        PiecesShort(s[1..], level, "");
      } else {
        PiecesShort(s[1..], LevelAfter(s[0], level), cur + [s[0]]);
      }
    }
  }

  lemma SubStringsShort(val: string)
    ensures forall i :: 0 <= i < |SubStrings(val)| ==> |SubStrings(val)[i]| <= |val|
  {
    PiecesShort(val, 0, "");
    var pieces := DropShortLast(Pieces(val, 0, ""));
    forall i | 0 <= i < |pieces|
      ensures |Strip(pieces[i])| <= |val|
    {
      assert pieces[i] in Pieces(val, 0, "");
      StripShort(pieces[i]);
      StripShort(StripLeft(pieces[i]));
    }
  }

  predicate AllSome(rs: seq<Option<CqlType>>) {
    forall i :: 0 <= i < |rs| ==> rs[i].Some?
  }

  function Values(rs: seq<Option<CqlType>>): seq<CqlType>
    requires AllSome(rs)
  {
    seq(|rs|, i requires 0 <= i < |rs| => rs[i].value)
  }

  function AllParsed(rs: seq<Option<CqlType>>): Option<seq<CqlType>> {
    if AllSome(rs) then Some(Values(rs)) else None
  }

  function Made(name: string, subs: Option<seq<CqlType>>, isUser: bool): Option<CqlType> {
    if subs.Some? then Some(CqlType(name, subs.value, isUser)) else None
  }

  /** `users` gives the field types of each user type. */
  function Parse(s: string, users: map<string, seq<string>>, fuel: nat): Option<CqlType>
    decreases fuel, |s|
  {
    if !IsComposite(s) then
      if s in users then
        if fuel == 0 then None
        else
          var fields := users[s];
          Made(s, AllParsed(seq(|fields|, i requires 0 <= i < |fields| => Parse(fields[i], users, fuel - 1))), true)
      else Some(CqlType(s, [], false))
    else if s[..FirstOpen(s)] == "frozen" then Parse(Inner(s), users, fuel)
    else
      SubStringsShort(Inner(s));
      var subs := SubStrings(Inner(s));
      Made(s[..FirstOpen(s)], AllParsed(seq(|subs|, i requires 0 <= i < |subs| => Parse(subs[i], users, fuel))), false)
  }

  // ---- the meaning of a written type ----

  predicate NameChar(c: char) {
    c != '<' && c != '>' && c != ','
  }

  ghost predicate GoodName(n: string) {
    Trimmed(n) && forall i :: 0 <= i < |n| ==> NameChar(n[i])
  }

  ghost predicate Good(t: Written)
    decreases t
  {
    && GoodName(t.name) && (t.name == "frozen" ==> |t.args| <= 1)
    && forall i :: 0 <= i < |t.args| ==> Good(t.args[i])
  }

  type Table = map<string, seq<Written>>

  function Printed(fields: seq<Written>): seq<string> {
    seq(|fields|, i requires 0 <= i < |fields| => Show(fields[i]))
  }

  function PrintedTable(table: Table): map<string, seq<string>> {
    map n | n in table :: Printed(table[n])
  }

  /** User types refer only to user types of smaller rank. */
  ghost predicate Acyclic(table: Table, rank: string -> nat) {
    forall n :: n in table ==> forall i :: 0 <= i < |table[n]| ==>
        Good(table[n][i]) && Below(table[n][i], table, rank, rank(n))
  }

  /** Every user type named in `t` has rank less than `bound`. */
  ghost predicate Below(t: Written, table: Table, rank: string -> nat, bound: nat)
    decreases t
  {
    if t.args == [] then t.name in table ==> rank(t.name) < bound
    else forall i :: 0 <= i < |t.args| ==> Below(t.args[i], table, rank, bound)
  }

  /** Frozen erased, user types opened. With `lossy`, a composite whose only argument is printed as a
      single character loses it. */
  ghost function Meaning(t: Written, table: Table, rank: string -> nat, bound: nat, lossy: bool): CqlType
    requires Good(t) && Acyclic(table, rank) && Below(t, table, rank, bound)
    decreases bound, 0, t, 1
  {
    if t.args == [] then
      if t.name in table then CqlType(t.name, FieldMeanings(t.name, table, rank, rank(t.name), lossy), true)
      else CqlType(t.name, [], false)
    else if t.name == "frozen" then Meaning(t.args[0], table, rank, bound, lossy)
    else CqlType(t.name, if lossy && Loses(t) then [] else ArgMeanings(t, table, rank, bound, lossy), false)
  }

  ghost function FieldMeanings(name: string, table: Table, rank: string -> nat, bound: nat,
      lossy: bool): (types: seq<CqlType>)
    requires Acyclic(table, rank) && name in table && bound == rank(name)
    ensures |types| == |table[name]|
    decreases bound, 1
  {
    seq(|table[name]|, i requires 0 <= i < |table[name]| => Meaning(table[name][i], table, rank, bound, lossy))
  }

  ghost function ArgMeanings(t: Written, table: Table, rank: string -> nat, bound: nat,
      lossy: bool): (types: seq<CqlType>)
    requires Good(t) && Acyclic(table, rank) && Below(t, table, rank, bound) && t.args != []
    ensures |types| == |t.args|
    decreases bound, 0, t, 0
  {
    seq(|t.args|, i requires 0 <= i < |t.args| => Meaning(t.args[i], table, rank, bound, lossy))
  }

  ghost predicate Loses(t: Written) {
    |t.args| == 1 && |Show(t.args[0])| == 1
  }

  // ---- scanning printed types ----

  function RunLevel(s: string, level: int): int
    decreases |s|
  {
    if s == "" then level else RunLevel(s[1..], LevelAfter(s[0], level))
  }

  predicate Whole(s: string, level: int)
    decreases |s|
  {
    s == "" || (!(s[0] == ',' && level == 0) && Whole(s[1..], LevelAfter(s[0], level)))
  }

  lemma {:induction false} LevelJoin(a: string, b: string, level: int)
    ensures RunLevel(a + b, level) == RunLevel(b, RunLevel(a, level))
    ensures Whole(a + b, level) <==> Whole(a, level) && Whole(b, RunLevel(a, level))
    decreases |a|
  {
    if a == "" {
      assert a + b == b;
    } else {
      assert (a + b)[1..] == a[1..] + b;
      LevelJoin(a[1..], b, LevelAfter(a[0], level));
    }
  }

  /** Not cut, and brackets balanced. */
  ghost predicate Balanced(s: string, level: int) {
    Whole(s, level) && RunLevel(s, level) == level
  }

  lemma BalancedJoin(a: string, b: string, level: int)
    requires Balanced(a, level) && Balanced(b, level)
    ensures Balanced(a + b, level)
  {
    LevelJoin(a, b, level);
  }

  lemma {:induction false} BalancedPlain(s: string, level: int)
    requires forall i :: 0 <= i < |s| ==> s[i] != '<' && s[i] != '>' && (s[i] != ',' || level != 0)
    ensures Balanced(s, level)
  {
    if s != "" {
      BalancedPlain(s[1..], level);
    }
  }

  ghost predicate AllBalanced(parts: seq<string>, level: int) {
    forall i :: 0 <= i < |parts| ==> Balanced(parts[i], level)
  }

  lemma {:induction false} BalancedJoined(parts: seq<string>, level: int)
    requires AllBalanced(parts, level) && level != 0
    ensures Balanced(Join(parts), level)
  {
    if |parts| > 1 {
      BalancedJoined(parts[1..], level);
      BalancedPlain(", ", level);
      BalancedJoin(parts[0], ", ", level);
      BalancedJoin(parts[0] + ", ", Join(parts[1..]), level);
    }
  }

  lemma BalancedBrackets(inner: string, level: int)
    requires Balanced(inner, level + 1)
    ensures Balanced("<" + inner + ">", level)
  {
    LevelJoin("<", inner, level);
    LevelJoin("<" + inner, ">", level);
    assert RunLevel("<", level) == level + 1 && RunLevel(">", level + 1) == level;
  }

  lemma {:induction false} ShowBalanced(t: Written, level: int)
    requires Good(t) && level >= 0
    ensures Balanced(Show(t), level)
    decreases t
  {
    BalancedPlain(t.name, level);
    if t.args != [] {
      forall i | 0 <= i < |t.args|
        ensures Balanced(ShowArgs(t)[i], level + 1)
      {
        ShowBalanced(t.args[i], level + 1);
      }
      BalancedJoined(ShowArgs(t), level + 1);
      BalancedBrackets(Join(ShowArgs(t)), level);
      BalancedJoin(t.name, "<" + Join(ShowArgs(t)) + ">", level);
    }
  }

  lemma {:induction false} ShowTrimmed(t: Written)
    requires Good(t)
    ensures Trimmed(Show(t))
  {
  }

  lemma {:induction false} FirstOpenIs(name: string, rest: string)
    requires (forall i :: 0 <= i < |name| ==> name[i] != '<') && rest != "" && rest[0] == '<'
    ensures FirstOpen(name + rest) == |name|
  {
    if name == "" {
      assert name + rest == rest;
    } else {
      assert (name + rest)[1..] == name[1..] + rest;
      FirstOpenIs(name[1..], rest);
    }
  }

  lemma Bracketed(name: string, inner: string)
    requires forall i :: 0 <= i < |name| ==> name[i] != '<'
    ensures var s := name + ("<" + inner + ">");
      IsComposite(s) && FirstOpen(s) == |name| && s[..|name|] == name && Inner(s) == inner
  {
    FirstOpenIs(name, "<" + inner + ">");
    var s := name + ("<" + inner + ">");
    assert s[|name| + 1..|s| - 1] == inner;
  }

  lemma NotComposite(name: string)
    requires GoodName(name)
    ensures !IsComposite(name)
  {
  }

  /** A printed composite comes apart into its name and its arguments. */
  lemma ShowComposite(t: Written)
    requires Good(t)
    ensures IsComposite(Show(t)) <==> t.args != []
    ensures t.args != [] ==> Show(t)[..FirstOpen(Show(t))] == t.name && Inner(Show(t)) == Join(ShowArgs(t))
  {
    if t.args == [] {
      NotComposite(t.name);
    } else {
      Bracketed(t.name, Join(ShowArgs(t)));
    }
  }

  lemma {:induction false} PiecesPast(a: string, b: string, level: int, cur: string)
    requires Whole(a, level)
    ensures Pieces(a + b, level, cur) == Pieces(b, RunLevel(a, level), cur + a)
    decreases |a|
  {
    if a == "" {
      assert a + b == b && cur + a == cur;
    } else {
      assert (a + b)[1..] == a[1..] + b;
      PiecesPast(a[1..], b, LevelAfter(a[0], level), cur + [a[0]]);
      assert cur + [a[0]] + a[1..] == cur + a;
    }
  }

  lemma PieceOne(part: string, rest: string, cur: string)
    requires Balanced(part, 0)
    ensures Pieces(part + ([','] + (" " + rest)), 0, cur) == [cur + part] + Pieces(rest, 0, " ")
  {
    var s1, s2 := [','] + (" " + rest), " " + rest;
    PiecesPast(part, s1, 0, cur);
    assert s1[1..] == s2 && s2[1..] == rest;
    assert Pieces(s1, 0, cur + part) == [cur + part] + Pieces(s2, 0, "");
    assert "" + [' '] == " ";
  }

  /** Cutting joined types gives them back. */
  lemma {:induction false} PiecesJoined(parts: seq<string>, first: bool)
    requires AllBalanced(parts, 0) && parts != []
    ensures Pieces(Join(parts), 0, if first then "" else " ") == Spaced(parts, first)
    decreases |parts|
  {
    var cur := if first then "" else " ";
    SpacedCons(parts, first);
    assert Balanced(parts[0], 0);
    if |parts| == 1 {
      PiecesPast(parts[0], "", 0, cur);
      assert parts[0] + "" == parts[0];
    } else {
      JoinHead(parts);
      PieceOne(parts[0], Join(parts[1..]), cur);
      assert AllBalanced(parts[1..], 0);
      PiecesJoined(parts[1..], false);
    }
  }

  /** Splitting the arguments of a printed composite. */
  lemma SubStringsShown(t: Written)
    requires Good(t) && t.args != []
    ensures SubStrings(Join(ShowArgs(t))) == if Loses(t) then [] else ShowArgs(t)
  {
    var parts := ShowArgs(t);
    forall i | 0 <= i < |parts|
      ensures Balanced(parts[i], 0) && Trimmed(parts[i]) && Strip(parts[i]) == parts[i] == Strip(" " + parts[i])
    {
      ShowBalanced(t.args[i], 0);
      ShowTrimmed(t.args[i]);
      StripTrimmed(parts[i]);
    }
    PiecesJoined(parts, true);
    var pieces := Spaced(parts, true);
    if |parts| > 1 {
      assert |pieces[|pieces| - 1]| >= 2;
    }
  }

  // ---- parsing undoes printing ----

  ghost predicate ParseTo(strings: seq<string>, users: map<string, seq<string>>, fuel: nat, types: seq<CqlType>) {
    |strings| == |types| && forall i :: 0 <= i < |strings| ==> Parse(strings[i], users, fuel) == Some(types[i])
  }

  lemma AllParsedTo(strings: seq<string>, users: map<string, seq<string>>, fuel: nat, types: seq<CqlType>)
    requires ParseTo(strings, users, fuel, types)
    ensures AllParsed(seq(|strings|, i requires 0 <= i < |strings| => Parse(strings[i], users, fuel))) == Some(types)
  {
    var rs := seq(|strings|, i requires 0 <= i < |strings| => Parse(strings[i], users, fuel));
    assert AllSome(rs) && Values(rs) == types;
  }

  lemma ParseUser(name: string, users: map<string, seq<string>>, fuel: nat, types: seq<CqlType>)
    requires GoodName(name) && name in users && fuel > 0 && ParseTo(users[name], users, fuel - 1, types)
    ensures Parse(name, users, fuel) == Some(CqlType(name, types, true))
  {
    NotComposite(name);
    AllParsedTo(users[name], users, fuel - 1, types);
  }

  lemma ParseComposite(t: Written, users: map<string, seq<string>>, fuel: nat, types: seq<CqlType>)
    requires Good(t) && t.args != [] && t.name != "frozen" && ParseTo(ShowArgs(t), users, fuel, types)
    ensures Parse(Show(t), users, fuel) == Some(CqlType(t.name, if Loses(t) then [] else types, false))
  {
    ShowComposite(t);
    SubStringsShown(t);
    if Loses(t) {
      AllParsedTo([], users, fuel, []);
    } else {
      AllParsedTo(ShowArgs(t), users, fuel, types);
    }
  }

  lemma ParseFrozen(t: Written, users: map<string, seq<string>>, fuel: nat)
    requires Good(t) && t.args != [] && t.name == "frozen"
    ensures Parse(Show(t), users, fuel) == Parse(Show(t.args[0]), users, fuel)
  {
    ShowComposite(t);
    assert Join(ShowArgs(t)) == Show(t.args[0]);
  }

  lemma ParseSimple(t: Written, users: map<string, seq<string>>, fuel: nat)
    requires Good(t) && t.args == [] && t.name !in users
    ensures Parse(Show(t), users, fuel) == Some(CqlType(t.name, [], false))
  {
    NotComposite(t.name);
  }

  /** With fuel for the user types involved, parsing a printed type gives its meaning, up to the
      arguments that are lost. */
  lemma {:induction false} ParseShown(t: Written, table: Table, rank: string -> nat, bound: nat, fuel: nat)
    requires Good(t) && Acyclic(table, rank) && Below(t, table, rank, bound) && fuel >= bound
    ensures Parse(Show(t), PrintedTable(table), fuel) == Some(Meaning(t, table, rank, bound, true))
    decreases bound, 0, t, 1
  {
    var users := PrintedTable(table);
    if t.args == [] {
      ParseLeaf(t, table, rank, bound, fuel);
    } else if t.name == "frozen" {
      ParseFrozen(t, users, fuel);
      ParseShown(t.args[0], table, rank, bound, fuel);
    } else {
      ParseArgs(t, table, rank, bound, fuel);
      ParseComposite(t, users, fuel, ArgMeanings(t, table, rank, bound, true));
    }
  }

  lemma {:induction false} ParseLeaf(t: Written, table: Table, rank: string -> nat, bound: nat, fuel: nat)
    requires Good(t) && t.args == [] && Acyclic(table, rank) && Below(t, table, rank, bound) && fuel >= bound
    ensures Parse(Show(t), PrintedTable(table), fuel) == Some(Meaning(t, table, rank, bound, true))
    decreases bound, 0, t, 0
  {
    if t.name in table {
      ParseNamed(t.name, table, rank, fuel);
    } else {
      ParseSimple(t, PrintedTable(table), fuel);
    }
  }

  lemma {:induction false} ParseNamed(name: string, table: Table, rank: string -> nat, fuel: nat)
    requires GoodName(name) && Acyclic(table, rank) && name in table && fuel > rank(name)
    ensures Parse(name, PrintedTable(table), fuel) ==
            Some(CqlType(name, FieldMeanings(name, table, rank, rank(name), true), true))
    decreases rank(name), 2
  {
    ParseFields(name, table, rank, fuel - 1);
    ParseUser(name, PrintedTable(table), fuel, FieldMeanings(name, table, rank, rank(name), true));
  }

  lemma {:induction false} ParseFields(name: string, table: Table, rank: string -> nat, fuel: nat)
    requires Acyclic(table, rank) && name in table && fuel >= rank(name)
    ensures ParseTo(PrintedTable(table)[name], PrintedTable(table), fuel,
        FieldMeanings(name, table, rank, rank(name), true))
    decreases rank(name), 1
  {
    var fields := table[name];
    forall i | 0 <= i < |fields|
      ensures Parse(Show(fields[i]), PrintedTable(table), fuel) ==
          Some(FieldMeanings(name, table, rank, rank(name), true)[i])
    {
      ParseShown(fields[i], table, rank, rank(name), fuel);
    }
    assert PrintedTable(table)[name] == Printed(fields);
  }

  lemma {:induction false} ParseArgs(t: Written, table: Table, rank: string -> nat, bound: nat, fuel: nat)
    requires Good(t) && Acyclic(table, rank) && Below(t, table, rank, bound) && t.args != [] && fuel >= bound
    ensures ParseTo(ShowArgs(t), PrintedTable(table), fuel, ArgMeanings(t, table, rank, bound, true))
    decreases bound, 0, t, 0
  {
    forall i | 0 <= i < |t.args|
      ensures Parse(Show(t.args[i]), PrintedTable(table), fuel) == Some(ArgMeanings(t, table, rank, bound, true)[i])
    {
      ParseShown(t.args[i], table, rank, bound, fuel);
    }
  }

  /** No composite in `t`, nor in the user types it names, loses its argument. */
  ghost predicate LossFree(t: Written, table: Table, rank: string -> nat, bound: nat)
    requires Good(t) && Acyclic(table, rank) && Below(t, table, rank, bound)
    decreases bound, t
  {
    if t.args == [] then
      t.name in table ==> forall i :: 0 <= i < |table[t.name]| ==> LossFree(table[t.name][i], table, rank, rank(t.name))
    else
      && (t.name == "frozen" || !Loses(t))
      && forall i :: 0 <= i < |t.args| ==> LossFree(t.args[i], table, rank, bound)
  }

  lemma {:induction false} LossExact(t: Written, table: Table, rank: string -> nat, bound: nat)
    requires Good(t) && Acyclic(table, rank) && Below(t, table, rank, bound)
    ensures Meaning(t, table, rank, bound, true) == Meaning(t, table, rank, bound, false) <==>
        LossFree(t, table, rank, bound)
    decreases bound, t
  {
    if t.args == [] {
      if t.name in table {
        var fields, r := table[t.name], rank(t.name);
        var lossy, full := FieldMeanings(t.name, table, rank, r, true), FieldMeanings(t.name, table, rank, r, false);
        forall i | 0 <= i < |fields|
          ensures lossy[i] == full[i] <==> LossFree(fields[i], table, rank, r)
        {
          LossExact(fields[i], table, rank, r);
        }
        assert lossy == full <==> forall i :: 0 <= i < |fields| ==> lossy[i] == full[i];
      }
    } else if t.name == "frozen" {
      LossExact(t.args[0], table, rank, bound);
    } else {
      var lossy, full := ArgMeanings(t, table, rank, bound, true), ArgMeanings(t, table, rank, bound, false);
      forall i | 0 <= i < |t.args|
        ensures lossy[i] == full[i] <==> LossFree(t.args[i], table, rank, bound)
      {
        LossExact(t.args[i], table, rank, bound);
      }
      assert lossy == full <==> forall i :: 0 <= i < |t.args| ==> lossy[i] == full[i];
    }
  }

  /** Parsing a printed type returns it with frozen<> erased and user types opened, whatever the fuel
      beyond the nesting of user types, exactly when no composite has a one-character argument alone. */
  lemma TypeRoundTrip(t: Written, table: Table, rank: string -> nat, bound: nat, fuel: nat)
    requires Good(t) && Acyclic(table, rank) && Below(t, table, rank, bound) && fuel >= bound
    ensures Parse(Show(t), PrintedTable(table), fuel).Some?
    ensures Parse(Show(t), PrintedTable(table), fuel) == Some(Meaning(t, table, rank, bound, false)) <==>
        LossFree(t, table, rank, bound)
  {
    ParseShown(t, table, rank, bound, fuel);
    LossExact(t, table, rank, bound);
  }

  /** Names of two characters or more are enough. */
  ghost predicate LongNames(t: Written)
    decreases t
  {
    |t.name| >= 2 && forall i :: 0 <= i < |t.args| ==> LongNames(t.args[i])
  }

  lemma {:induction false} LongNamesLossFree(t: Written, table: Table, rank: string -> nat, bound: nat)
    requires Good(t) && Acyclic(table, rank) && Below(t, table, rank, bound) && LongNames(t)
    requires forall n, i :: n in table && 0 <= i < |table[n]| ==> LongNames(table[n][i])
    ensures LossFree(t, table, rank, bound)
    decreases bound, t
  {
    if t.args == [] {
      if t.name in table {
        forall i | 0 <= i < |table[t.name]|
          ensures LossFree(table[t.name][i], table, rank, rank(t.name))
        {
          LongNamesLossFree(table[t.name][i], table, rank, rank(t.name));
        }
      }
    } else {
      assert |Show(t.args[0])| >= |t.args[0].name| >= 2;
      forall i | 0 <= i < |t.args|
        ensures LossFree(t.args[i], table, rank, bound)
      {
        LongNamesLossFree(t.args[i], table, rank, bound);
      }
    }
  }

  /** The one-character case: the argument of `list<a>` is gone. */
  lemma OneCharacterArgument(fuel: nat)
    ensures Parse("list<a>", map[], fuel) == Some(CqlType("list", [], false))
  {
    var t := Written("list", [Written("a", [])]);
    assert ShowArgs(t) == ["a"];
    assert Show(t) == "list<a>";
    ParseSimple(t.args[0], map[], fuel);
    ParseComposite(t, map[], fuel, [CqlType("a", [], false)]);
  }

  // ---- the scanning loop ----

  lemma PieceStep(val: string, i: nat, last: nat, level: int)
    requires last <= i < |val|
    ensures Pieces(val[i..], level, val[last..i]) ==
            if val[i] == ',' && level == 0 then [val[last..i]] + Pieces(val[i + 1..], level, val[i + 1..i + 1])
            else Pieces(val[i + 1..], LevelAfter(val[i], level), val[last..i + 1])
  {
    var rest := val[i..];
    assert rest[0] == val[i];
    assert rest[1..] == val[i + 1..];
    assert val[last..i] + [val[i]] == val[last..i + 1];
    assert val[i + 1..i + 1] == "";
  }

  function Stripped(pieces: seq<string>): seq<string> {
    seq(|pieces|, i requires 0 <= i < |pieces| => Strip(pieces[i]))
  }

  lemma StrippedSnoc(pieces: seq<string>, piece: string)
    ensures Stripped(pieces + [piece]) == Stripped(pieces) + [Strip(piece)]
  {
  }

  /** The pieces found so far and those the rest of the scan will find. */
  ghost predicate Scanned(val: string, i: nat, last: nat, level: int, raw: seq<string>)
    requires last <= i <= |val|
  {
    raw + Pieces(val[i..], level, val[last..i]) == Pieces(val, 0, "")
  }

  lemma ScanStep(val: string, i: nat, last: nat, level: int, raw: seq<string>)
    requires last <= i < |val| && Scanned(val, i, last, level, raw)
    ensures if val[i] == ',' && level == 0 then Scanned(val, i + 1, i + 1, level, raw + [val[last..i]])
            else Scanned(val, i + 1, last, LevelAfter(val[i], level), raw)
  {
    PieceStep(val, i, last, level);
    if val[i] == ',' && level == 0 {
      var more := Pieces(val[i + 1..], level, val[i + 1..i + 1]);
      assert raw + ([val[last..i]] + more) == raw + [val[last..i]] + more;
    }
  }

  lemma ScanEnd(val: string, last: nat, level: int, raw: seq<string>)
    requires last <= |val| && Scanned(val, |val|, last, level, raw)
    ensures SubStrings(val) == Stripped(if last < |val| - 1 then raw + [val[last..]] else raw)
  {
    assert val[|val|..] == "" && val[last..|val|] == val[last..];
    var pieces := raw + [val[last..]];
    assert pieces == Pieces(val, 0, "") && pieces[..|raw|] == raw;
  }

  method SplitSubTypes(val: string) returns (ret: seq<string>)
    ensures ret == SubStrings(val)
  {
    var last, level := 0, 0;
    ret := [];
    ghost var raw: seq<string> := [];
    assert val[0..] == val && val[0..0] == "";
    for i := 0 to |val|
      invariant 0 <= last <= i && ret == Stripped(raw) && Scanned(val, i, last, level, raw)
    {
      ScanStep(val, i, last, level, raw);
      var c := val[i];
      if c == '<' {
        level := level + 1;
      } else if c == '>' {
        level := level - 1;
      } else if c == ',' && level == 0 {
        StrippedSnoc(raw, val[last..i]);
        ret := ret + [Strip(val[last..i])];
        raw := raw + [val[last..i]];
        last := i + 1;
      }
    }
    ScanEnd(val, last, level, raw);
    if last < |val| - 1 {
      StrippedSnoc(raw, val[last..]);
      ret := ret + [Strip(val[last..])];
    }
  }
}
