/** Exactly when CqlType.parse returns: unless the type string leads to a user type that, through the
    types of its fields, leads back to itself.
 */
module TypeCycles {
  import opened Common
  import opened TypeStrings

  ghost predicate GoodTable(table: Table) {
    forall n, i :: n in table && 0 <= i < |table[n]| ==> Good(table[n][i])
  }

  /** Parsing `t` opens the user type `name`; an argument that is lost is not looked at. */
  ghost predicate Opens(t: Written, table: Table, name: string)
    decreases t
  {
    if t.args == [] then t.name == name && name in table
    else if t.name == "frozen" then Opens(t.args[0], table, name)
    else !Loses(t) && exists i :: 0 <= i < |t.args| && Opens(t.args[i], table, name)
  }

  /** Opening `t` nests user types at most `n` deep. */
  ghost predicate Within(t: Written, table: Table, n: nat)
    decreases n, t
  {
    if t.args == [] then
      t.name in table ==> n > 0 && FieldsWithin(t.name, table, n - 1)
    else if t.name == "frozen" then Within(t.args[0], table, n)
    else Loses(t) || forall i :: 0 <= i < |t.args| ==> Within(t.args[i], table, n)
  }

  ghost predicate FieldsWithin(name: string, table: Table, n: nat)
    requires name in table
    decreases n
  {
    forall i :: 0 <= i < |table[name]| ==> Within(table[name][i], table, n)
  }

  // ---- the fuel needed is the nesting of user types ----

  ghost predicate AllReturn(strings: seq<string>, users: map<string, seq<string>>, fuel: nat) {
    forall i :: 0 <= i < |strings| ==> Parse(strings[i], users, fuel).Some?
  }

  lemma AllParsedReturn(strings: seq<string>, users: map<string, seq<string>>, fuel: nat)
    ensures AllParsed(seq(|strings|, i requires 0 <= i < |strings| => Parse(strings[i], users, fuel))).Some? <==>
            AllReturn(strings, users, fuel)
  {
    var rs := seq(|strings|, i requires 0 <= i < |strings| => Parse(strings[i], users, fuel));
    assert forall i :: 0 <= i < |strings| ==> rs[i] == Parse(strings[i], users, fuel);
    assert AllSome(rs) <==> AllReturn(strings, users, fuel);
  }

  lemma UserReturns(name: string, users: map<string, seq<string>>, fuel: nat)
    requires GoodName(name) && name in users
    ensures Parse(name, users, fuel).Some? <==> fuel > 0 && AllReturn(users[name], users, fuel - 1)
  {
    NotComposite(name);
    if fuel > 0 {
      AllParsedReturn(users[name], users, fuel - 1);
    }
  }

  /** The same, with the meaning of the fields' returning left open. */
  lemma UserReturnsIff(name: string, users: map<string, seq<string>>, fuel: nat, fields: bool)
    requires GoodName(name) && name in users && (fuel > 0 ==> (AllReturn(users[name], users, fuel - 1) <==> fields))
    ensures Parse(name, users, fuel).Some? <==> fuel > 0 && fields
  {
    UserReturns(name, users, fuel);
  }

  lemma CompositeReturns(t: Written, users: map<string, seq<string>>, fuel: nat)
    requires Good(t) && t.args != [] && t.name != "frozen"
    ensures Parse(Show(t), users, fuel).Some? <==> Loses(t) || AllReturn(ShowArgs(t), users, fuel)
  {
    ShowComposite(t);
    SubStringsShown(t);
    AllParsedReturn(SubStrings(Inner(Show(t))), users, fuel);
  }

  lemma {:induction false} ParseReturns(t: Written, table: Table, fuel: nat)
    requires Good(t) && GoodTable(table)
    ensures Parse(Show(t), PrintedTable(table), fuel).Some? <==> Within(t, table, fuel)
    decreases fuel, 2, t, 1
  {
    if t.args == [] {
      NameReturns(t.name, table, fuel);
    } else if t.name == "frozen" {
      ParseFrozen(t, PrintedTable(table), fuel);
      ParseReturns(t.args[0], table, fuel);
    } else {
      CompositeReturns(t, PrintedTable(table), fuel);
      ArgsReturn(t, table, fuel);
    }
  }

  lemma {:induction false} ArgsReturn(t: Written, table: Table, fuel: nat)
    requires Good(t) && GoodTable(table)
    ensures AllReturn(ShowArgs(t), PrintedTable(table), fuel) <==>
            forall i :: 0 <= i < |t.args| ==> Within(t.args[i], table, fuel)
    decreases fuel, 2, t, 0
  {
    forall i | 0 <= i < |t.args|
      ensures Parse(ShowArgs(t)[i], PrintedTable(table), fuel).Some? <==> Within(t.args[i], table, fuel)
    {
      ParseReturns(t.args[i], table, fuel);
    }
  }

  lemma UnknownReturns(name: string, users: map<string, seq<string>>, fuel: nat)
    requires GoodName(name) && name !in users
    ensures Parse(name, users, fuel).Some?
  {
    NotComposite(name);
  }

  lemma {:induction false} KnownReturns(name: string, table: Table, fuel: nat)
    requires GoodName(name) && GoodTable(table) && name in table
    ensures Parse(name, PrintedTable(table), fuel).Some? <==> fuel > 0 && FieldsWithin(name, table, fuel - 1)
    decreases fuel, 0
  {
    if fuel == 0 {
      UserReturnsIff(name, PrintedTable(table), fuel, false);
    } else {
      FieldsReturn(name, table, fuel - 1);
      UserReturnsIff(name, PrintedTable(table), fuel, FieldsWithin(name, table, fuel - 1));
    }
  }

  lemma {:induction false} NameReturns(name: string, table: Table, fuel: nat)
    requires GoodName(name) && GoodTable(table)
    ensures Parse(name, PrintedTable(table), fuel).Some? <==>
            (name in table ==> fuel > 0 && FieldsWithin(name, table, fuel - 1))
    decreases fuel, 1
  {
    if name in table {
      KnownReturns(name, table, fuel);
    } else {
      UnknownReturns(name, PrintedTable(table), fuel);
    }
  }

  lemma {:induction false} FieldsReturn(name: string, table: Table, fuel: nat)
    requires GoodTable(table) && name in table
    ensures AllReturn(PrintedTable(table)[name], PrintedTable(table), fuel) <==> FieldsWithin(name, table, fuel)
    decreases fuel
  {
    var users := PrintedTable(table);
    forall i | 0 <= i < |table[name]|
      ensures Parse(users[name][i], users, fuel).Some? <==> Within(table[name][i], table, fuel)
    {
      ParseReturns(table[name][i], table, fuel);
    }
  }

  // ---- cycles ----

  /** A field of user type `a` opens user type `b`. */
  ghost predicate Leads(table: Table, a: string, b: string) {
    a in table && exists i :: 0 <= i < |table[a]| && Opens(table[a][i], table, b)
  }

  ghost predicate Linked(table: Table, path: seq<string>) {
    forall i :: 0 <= i < |path| - 1 ==> Leads(table, path[i], path[i + 1])
  }

  /** `t` leads through user types to one that comes again. */
  ghost predicate Endless(t: Written, table: Table) {
    exists path: seq<string> :: path != [] && Opens(t, table, path[0]) && Linked(table, path) && !Distinct(path)
  }

  ghost predicate Deep(table: Table, name: string, n: nat) {
    Within(Written(name, []), table, n)
  }

  lemma {:induction false} OpensWithin(t: Written, table: Table, name: string, n: nat)
    requires Within(t, table, n) && Opens(t, table, name)
    ensures Deep(table, name, n)
    decreases t
  {
    if t.args == [] {
      assert t == Written(name, []);
    } else if t.name == "frozen" {
      OpensWithin(t.args[0], table, name, n);
    } else {
      var i :| 0 <= i < |t.args| && Opens(t.args[i], table, name);
      OpensWithin(t.args[i], table, name, n);
    }
  }

  lemma LeadsDeep(table: Table, a: string, b: string, n: nat)
    requires Leads(table, a, b) && Deep(table, a, n)
    ensures n > 0 && Deep(table, b, n - 1)
  {
    assert n > 0 && FieldsWithin(a, table, n - 1);
    var i :| 0 <= i < |table[a]| && Opens(table[a][i], table, b);
    OpensWithin(table[a][i], table, b, n - 1);
  }

  lemma {:induction false} PathDeep(table: Table, path: seq<string>, i: nat, j: nat, n: nat)
    requires i <= j < |path| && Linked(table, path) && Deep(table, path[i], n)
    ensures n >= j - i && Deep(table, path[j], n - (j - i))
    decreases j - i
  {
    if i < j {
      LeadsDeep(table, path[i], path[i + 1], n);
      PathDeep(table, path, i + 1, j, n - 1);
    }
  }

  /** A user type that comes again is never within any depth. */
  lemma {:induction false} RepeatedNever(table: Table, path: seq<string>, i: nat, j: nat, n: nat)
    requires i < j < |path| && path[i] == path[j] && Linked(table, path)
    ensures !Deep(table, path[i], n)
    decreases n
  {
    if Deep(table, path[i], n) {
      PathDeep(table, path, i, j, n);
      RepeatedNever(table, path, i, j, n - (j - i));
    }
  }

  lemma {:induction false} TooDeep(t: Written, table: Table, n: nat) returns (name: string)
    requires !Within(t, table, n)
    ensures Opens(t, table, name) && !Deep(table, name, n)
    decreases t
  {
    if t.args == [] {
      name := t.name;
      assert t == Written(name, []);
    } else if t.name == "frozen" {
      name := TooDeep(t.args[0], table, n);
    } else {
      var i :| 0 <= i < |t.args| && !Within(t.args[i], table, n);
      name := TooDeep(t.args[i], table, n);
    }
  }

  /** Beyond depth `n` there is a path of `n + 1` user types. */
  lemma {:induction false} LongPath(t: Written, table: Table, n: nat) returns (path: seq<string>)
    requires !Within(t, table, n)
    ensures |path| == n + 1 && Opens(t, table, path[0]) && Linked(table, path)
    ensures forall i :: 0 <= i < |path| ==> path[i] in table
    decreases n
  {
    var name := TooDeep(t, table, n);
    path := [name];
    OpensUser(t, table, name);
    if n > 0 {
      assert !FieldsWithin(name, table, n - 1);
      var i :| 0 <= i < |table[name]| && !Within(table[name][i], table, n - 1);
      var rest := LongPath(table[name][i], table, n - 1);
      path := [name] + rest;
      assert Leads(table, path[0], path[1]);
      assert forall k :: 1 <= k < |path| ==> path[k] == rest[k - 1];
    }
  }

  lemma {:induction false} OpensUser(t: Written, table: Table, name: string)
    requires Opens(t, table, name)
    ensures name in table
    decreases t
  {
    if t.args != [] {
      if t.name == "frozen" {
        OpensUser(t.args[0], table, name);
      } else {
        var i :| 0 <= i < |t.args| && Opens(t.args[i], table, name);
        OpensUser(t.args[i], table, name);
      }
    }
  }

  lemma EndlessNever(t: Written, table: Table, fuel: nat)
    requires Good(t) && GoodTable(table) && Endless(t, table)
    ensures Parse(Show(t), PrintedTable(table), fuel).None?
  {
    var path: seq<string> :| path != [] && Opens(t, table, path[0]) && Linked(table, path) && !Distinct(path);
    var i, j :| 0 <= i < j < |path| && path[i] == path[j];
    ParseReturns(t, table, fuel);
    if Within(t, table, fuel) {
      OpensWithin(t, table, path[0], fuel);
      PathDeep(table, path, 0, i, fuel);
      RepeatedNever(table, path, i, j, fuel - i);
    }
  }

  lemma OtherwiseWithin(t: Written, table: Table)
    requires !Endless(t, table)
    ensures Within(t, table, |table|)
  {
    if !Within(t, table, |table|) {
      var path := LongPath(t, table, |table|);
      assert |table.Keys| == |table|;
      if Distinct(path) {
        DistinctBound(path, table.Keys);
      }
    }
  }

  /** On an endless type parsing runs out of any fuel; on every other it returns, with fuel for as
      many nested user types as there are. */
  lemma ParseReturnsExactly(t: Written, table: Table)
    requires Good(t) && GoodTable(table)
    ensures Endless(t, table) ==> forall fuel: nat :: Parse(Show(t), PrintedTable(table), fuel).None?
    ensures !Endless(t, table) ==> Parse(Show(t), PrintedTable(table), |table|).Some?
  {
    if Endless(t, table) {
      forall fuel: nat
        ensures Parse(Show(t), PrintedTable(table), fuel).None?
      {
        EndlessNever(t, table, fuel);
      }
    } else {
      OtherwiseWithin(t, table);
      ParseReturns(t, table, |table|);
    }
  }
}
