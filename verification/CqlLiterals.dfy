/** Collection literals as COPY TO prints them and COPY FROM reads them back.

    A set is represented by its elements, and a map by its entries, in the order they are printed.
    Integers are printed without a thousands separator.
 */
module CqlLiterals {
  import opened Common
  import opened CqlText

  datatype Kind = AsList | AsTuple | AsSet

  /** A named part of a user type: its type, or its value. */
  datatype Field<T> = Field(name: string, value: T)

  datatype Type =
    | IntType
    | TextType
    | ElemType(kind: Kind, elem: Type)
    | TupleType(subs: seq<Type>)
    | MapType(key: Type, value: Type)
    | UserType(typeName: string, fieldTypes: seq<Field<Type>>)

  datatype Entry = Entry(key: Value, value: Value)

  datatype Value =
    | Null
    | Int(n: int)
    | Text(s: string)
    | Coll(kind: Kind, elems: seq<Value>)
    | Map(entries: seq<Entry>)
    | User(fields: seq<Field<Value>>)

  // ---- printing ----

  function OpenOf(kind: Kind): char {
    match kind case AsList => '[' case AsTuple => '(' case AsSet => '{'
  }

  function CloseOf(kind: Kind): char {
    match kind case AsList => ']' case AsTuple => ')' case AsSet => '}'
  }

  /** A value as it appears inside a literal, text in quotes. */
  function Lit(v: Value, nullval: string): string
    decreases v, 1
  {
    match v
    case Null => nullval
    case Int(n) => IntText(n)
    case Text(s) => "'" + Escaped(s) + "'"
    case Coll(kind, _) => [OpenOf(kind)] + Join(Parts(v, nullval)) + [CloseOf(kind)]
    case Map(_) => "{" + Join(Parts(v, nullval)) + "}"
    case User(_) => "{" + Join(Parts(v, nullval)) + "}"
  }

  /** The printed components of a composite. */
  function Parts(v: Value, nullval: string): seq<string>
    decreases v, 0
  {
    match v
    case Coll(_, elems) => seq(|elems|, i requires 0 <= i < |elems| => Lit(elems[i], nullval))
    case Map(entries) =>
      seq(|entries|, i requires 0 <= i < |entries| =>
          Lit(entries[i].key, nullval) + ": " + Lit(entries[i].value, nullval))
    case User(fields) =>
      seq(|fields|, i requires 0 <= i < |fields| => Shown(fields[i].name) + ": " + Lit(fields[i].value, nullval))
    case _ => []
  }

  /** What collections of two look like; longer ones go on the same way. */
  lemma CollLooks(kind: Kind, a: Value, b: Value, nullval: string)
    ensures
      var inner := Lit(a, nullval) + ", " + Lit(b, nullval);
      Lit(Coll(kind, [a, b]), nullval) ==
      match kind
      case AsList => "[" + inner + "]"
      case AsSet => "{" + inner + "}"
      case AsTuple => "(" + inner + ")"
  {
    TwoJoined(Parts(Coll(kind, [a, b]), nullval));
  }

  lemma MapLooks(a: Entry, b: Entry, nullval: string)
    ensures Lit(Map([a, b]), nullval) ==
            "{" + (Lit(a.key, nullval) + ": " + Lit(a.value, nullval) + ", "
                   + (Lit(b.key, nullval) + ": " + Lit(b.value, nullval))) + "}"
  {
    TwoJoined(Parts(Map([a, b]), nullval));
  }

  lemma UserLooks(a: Field<Value>, b: Field<Value>, nullval: string)
    ensures Lit(User([a, b]), nullval) ==
            "{" + (Shown(a.name) + ": " + Lit(a.value, nullval) + ", "
                   + (Shown(b.name) + ": " + Lit(b.value, nullval))) + "}"
  {
    TwoJoined(Parts(User([a, b]), nullval));
  }

  lemma TwoJoined(parts: seq<string>)
    requires |parts| == 2
    ensures Join(parts) == parts[0] + ", " + parts[1]
  {
  }

  // ---- reading ----

  /** All results, or None if one of them raised. */
  function Sequence<T>(rs: seq<Option<T>>): Option<seq<T>> {
    if rs == [] then Some([])
    else if rs[0].None? then None
    else match Sequence(rs[1..])
      case None => None
      case Some(vs) => Some([rs[0].value] + vs)
  }

  lemma {:induction false} SequenceIs<T>(rs: seq<Option<T>>, vs: seq<T>)
    ensures Sequence(rs) == Some(vs) <==> |rs| == |vs| && forall i :: 0 <= i < |rs| ==> rs[i] == Some(vs[i])
  {
    if rs != [] {
      if |vs| > 0 {
        SequenceIs(rs[1..], vs[1..]);
        assert vs == [vs[0]] + vs[1..];
        if |rs| == |vs| && forall i :: 0 <= i < |rs| ==> rs[i] == Some(vs[i]) {
          assert forall i :: 0 <= i < |rs[1..]| ==> rs[1..][i] == Some(vs[1..][i]);
        }
        if Sequence(rs) == Some(vs) {
          assert Sequence(rs[1..]) == Some(vs[1..]);
          assert forall i :: 1 <= i < |rs| ==> rs[i] == rs[1..][i - 1];
        }
      }
    }
  }

  /** One component cut at its colons, of which the first two pieces are used. */
  function PairOf(piece: string): Option<(string, string)> {
    match Split("{" + piece + "}", ':')
    case None => None
    case Some(ps) => if |ps| < 2 then None else Some((ps[0], ps[1]))
  }

  /** A dictionary made of pairs; a later pair replaces an earlier one. */
  function Dict(pairs: seq<(string, string)>): map<string, string> {
    if pairs == [] then map[] else Dict(pairs[..|pairs| - 1])[pairs[|pairs| - 1].0 := pairs[|pairs| - 1].1]
  }

  function Dequoted(pairs: seq<(string, string)>): seq<(string, string)> {
    seq(|pairs|, i requires 0 <= i < |pairs| => (DequoteValue(pairs[i].0), pairs[i].1))
  }

  function Mandatory(t: Type, piece: string, nullval: string): Option<Value>
    decreases t, 3
  {
    var w := DequoteValue(piece);
    if w == nullval then None else Convert(t, w, nullval)
  }

  function Optional(t: Type, piece: string, nullval: string): Option<Value>
    decreases t, 3
  {
    var w := DequoteValue(piece);
    if w == nullval then Some(Null) else Convert(t, w, nullval)
  }

  function MakeEntry(key: Option<Value>, value: Option<Value>): Option<Entry> {
    if key.Some? && value.Some? then Some(Entry(key.value, value.value)) else None
  }

  function MakeField(name: string, value: Option<Value>): Option<Field<Value>> {
    if value.Some? then Some(Field(name, value.value)) else None
  }

  function MakeColl(kind: Kind, vs: Option<seq<Value>>): Option<Value> {
    if vs.Some? then Some(Coll(kind, vs.value)) else None
  }

  function MakeMap(es: Option<seq<Entry>>): Option<Value> {
    if es.Some? then Some(Map(es.value)) else None
  }

  function MakeUser(fs: Option<seq<Field<Value>>>): Option<Value> {
    if fs.Some? then Some(User(fs.value)) else None
  }

  function Least(a: nat, b: nat): nat {
    if a < b then a else b
  }

  // ---- names a named tuple accepts ----

  const KEYWORDS: set<string> := {
    "and", "as", "assert", "break", "class", "continue", "def", "del", "elif", "else", "except", "exec", "finally",
    "for", "from", "global", "if", "import", "in", "is", "lambda", "not", "or", "pass", "print", "raise", "return",
    "try", "while", "with", "yield"
  }

  predicate NameChar(c: char) {
    'a' <= c <= 'z' || 'A' <= c <= 'Z' || IsDigit(c) || c == '_'
  }

  predicate OnlyNameChars(name: string) {
    name == "" || (NameChar(name[0]) && OnlyNameChars(name[1..]))
  }

  predicate NameAccepted(name: string) {
    name != "" && OnlyNameChars(name) && name !in KEYWORDS && !IsDigit(name[0])
  }

  /** The fields in turn, with the names already seen. */
  predicate FieldsAccepted(fts: seq<Field<Type>>, seen: set<string>)
    decreases |fts|
  {
    fts == []
    || (NameAccepted(fts[0].name) && fts[0].name[0] != '_' && fts[0].name !in seen
        && FieldsAccepted(fts[1..], seen + {fts[0].name}))
  }

  /** Letters, digits and underscores, not starting with a digit, and not a Python keyword. */
  predicate Identifier(name: string) {
    && name != "" && name !in KEYWORDS && !(48 <= name[0] as int <= 57)
    && forall i :: 0 <= i < |name| ==>
         var c := name[i] as int; 97 <= c <= 122 || 65 <= c <= 90 || 48 <= c <= 57 || c == 95
  }

  /** The names with which the class for a user type can be made; for all others that raises. */
  predicate NamesPermitted(typeName: string, fts: seq<Field<Type>>) {
    && Identifier(typeName)
    && (forall i :: 0 <= i < |fts| ==> Identifier(fts[i].name) && fts[i].name[0] as int != 95)
    && (forall i, j :: 0 <= i < j < |fts| ==> fts[i].name != fts[j].name)
  }

  lemma {:induction false} NameCharsExact(name: string)
    ensures OnlyNameChars(name) <==> forall i :: 0 <= i < |name| ==>
              var c := name[i] as int; 97 <= c <= 122 || 65 <= c <= 90 || 48 <= c <= 57 || c == 95
  {
    if name != "" {
      NameCharsExact(name[1..]);
      assert forall i :: 1 <= i < |name| ==> name[i] == name[1..][i - 1];
      assert forall i :: 0 <= i < |name| - 1 ==> name[1..][i] == name[i + 1];
    }
  }

  lemma AcceptedIs(name: string)
    ensures NameAccepted(name) <==> Identifier(name)
  {
    NameCharsExact(name);
  }

  /** The field names are acceptable, and neither seen before nor twice. */
  ghost predicate FieldsPermitted(fts: seq<Field<Type>>, seen: set<string>) {
    && (forall i :: 0 <= i < |fts| ==> Identifier(fts[i].name) && fts[i].name[0] as int != 95 && fts[i].name !in seen)
    && (forall i, j :: 0 <= i < j < |fts| ==> fts[i].name != fts[j].name)
  }

  lemma FieldsCons(fts: seq<Field<Type>>, seen: set<string>)
    requires fts != []
    ensures FieldsPermitted(fts, seen) <==>
              && Identifier(fts[0].name) && fts[0].name[0] as int != 95 && fts[0].name !in seen
              && FieldsPermitted(fts[1..], seen + {fts[0].name})
  {
    var rest := fts[1..];
    assert forall i :: 1 <= i < |fts| ==> fts[i] == rest[i - 1];
    assert forall i :: 0 <= i < |rest| ==> rest[i] == fts[i + 1];
  }

  lemma {:induction false} FieldsAcceptedIs(fts: seq<Field<Type>>, seen: set<string>)
    ensures FieldsAccepted(fts, seen) <==> FieldsPermitted(fts, seen)
    decreases |fts|
  {
    if fts != [] {
      AcceptedIs(fts[0].name);
      FieldsCons(fts, seen);
      FieldsAcceptedIs(fts[1..], seen + {fts[0].name});
    }
  }

  /** The class for a user type can be made exactly if its names are permitted. */
  lemma NamesExact(typeName: string, fts: seq<Field<Type>>)
    ensures NameAccepted(typeName) && FieldsAccepted(fts, {}) <==> NamesPermitted(typeName, fts)
  {
    AcceptedIs(typeName);
    FieldsAcceptedIs(fts, {});
  }

  // ---- the converters ----

  /** The converter of type `t`, on text from which the outer quotes are gone; None is an error. */
  function Convert(t: Type, w: string, nullval: string): Option<Value>
    decreases t, 2
  {
    match t
    case IntType => (match ParseInt(w) case None => None case Some(n) => Some(Int(n)))
    case TextType => Some(Text(w))
    case _ =>
      match Split(w, ',')
      case None => None
      case Some(pieces) => ConvertPieces(t, pieces, nullval)
  }

  function ConvertPieces(t: Type, pieces: seq<string>, nullval: string): Option<Value>
    requires !t.IntType? && !t.TextType?
    decreases t, 1
  {
    match t
    case ElemType(kind, _) => MakeColl(kind, Sequence(Elements(t, pieces, nullval)))
    case TupleType(_) => MakeColl(AsTuple, Sequence(Elements(t, pieces, nullval)))
    case MapType(_, _) =>
      (match Sequence(Pairs(pieces))
       case None => None
       case Some(ps) => MakeMap(Sequence(Entries(t, ps, nullval))))
    case UserType(typeName, fts) =>
      if !NameAccepted(typeName) || !FieldsAccepted(fts, {}) then None
      else
        match Sequence(Pairs(pieces))
        case None => None
        case Some(ps) => MakeUser(Sequence(NamedFields(t, Dict(Dequoted(ps)), nullval)))
  }

  /** The type of element number `i`. */
  function SubType(t: Type, i: nat): (sub: Type)
    requires t.ElemType? || (t.TupleType? && i < |t.subs|)
    ensures sub < t
  {
    if t.ElemType? then t.elem else t.subs[i]
  }

  /** The elements of a list, set or tuple; pieces beyond the types of a tuple are not looked at. */
  function Elements(t: Type, pieces: seq<string>, nullval: string): (rs: seq<Option<Value>>)
    requires t.ElemType? || t.TupleType?
    ensures |rs| == if t.ElemType? then |pieces| else Least(|t.subs|, |pieces|)
    decreases t, 0
  {
    var n := if t.ElemType? then |pieces| else Least(|t.subs|, |pieces|);
    seq(n, i requires 0 <= i < n => Mandatory(SubType(t, i), pieces[i], nullval))
  }

  function Pairs(pieces: seq<string>): (ps: seq<Option<(string, string)>>)
    ensures |ps| == |pieces|
  {
    seq(|pieces|, i requires 0 <= i < |pieces| => PairOf(pieces[i]))
  }

  function Entries(t: Type, ps: seq<(string, string)>, nullval: string): (rs: seq<Option<Entry>>)
    requires t.MapType?
    ensures |rs| == |ps|
    decreases t, 0
  {
    seq(|ps|, i requires 0 <= i < |ps| =>
      MakeEntry(Mandatory(t.key, ps[i].0, nullval), Optional(t.value, ps[i].1, nullval)))
  }

  /** The declared fields in their order, each looked up by its name; a missing one is null. */
  function NamedFields(t: Type, dict: map<string, string>, nullval: string): (rs: seq<Option<Field<Value>>>)
    requires t.UserType?
    ensures |rs| == |t.fieldTypes|
    decreases t, 0
  {
    var fts := t.fieldTypes;
    seq(|fts|, i requires 0 <= i < |fts| =>
      MakeField(fts[i].name, FieldValue(fts[i].value, fts[i].name, dict, nullval)))
  }

  function FieldValue(t: Type, name: string, dict: map<string, string>, nullval: string): Option<Value>
    decreases t, 4
  {
    if name in dict then Optional(t, dict[name], nullval) else Some(Null)
  }

  // ---- values that can be printed ----

  /** A word the split passes over and dequoting leaves alone. */
  ghost predicate CleanWord(w: string) {
    && (w == "" || Trimmed(w))
    && forall i :: 0 <= i < |w| ==> IsOrdinary(w[i]) && w[i] != ',' && w[i] != ':'
  }

  /** The position of a field name, or the number of fields. */
  function IndexOf<T>(fields: seq<Field<T>>, name: string): (i: nat)
    ensures i <= |fields| && (i < |fields| ==> fields[i].name == name)
    ensures forall k :: 0 <= k < i ==> fields[k].name != name
  {
    if fields == [] || fields[0].name == name then 0 else 1 + IndexOf(fields[1..], name)
  }

  ghost predicate DistinctNames(fields: seq<Field<Value>>) {
    forall i, j :: 0 <= i < j < |fields| ==> fields[i].name != fields[j].name
  }

  ghost predicate DistinctTypes(fts: seq<Field<Type>>) {
    forall k :: 0 <= k < |fts| ==> IndexOf(fts, fts[k].name) == k
  }

  /** A value of type `t`. The fields of a user type may be null, may be missing and may come in any
      order; a null can be told apart only if the null marker itself is a clean word. */
  ghost predicate Fits(v: Value, t: Type, nullval: string)
    decreases v
  {
    match v
    case Null => CleanWord(nullval)
    case Int(_) => t.IntType?
    case Text(_) => t.TextType?
    case Coll(kind, elems) =>
      && ((t.ElemType? && t.kind == kind) || (t.TupleType? && kind == AsTuple && |t.subs| == |elems|))
      && forall i :: 0 <= i < |elems| ==>
           !elems[i].Null? && Fits(elems[i], if t.ElemType? then t.elem else t.subs[i], nullval)
    case Map(entries) =>
      && t.MapType?
      && forall i :: 0 <= i < |entries| ==>
           && !entries[i].key.Null? && Fits(entries[i].key, t.key, nullval)
           && !entries[i].value.Null? && Fits(entries[i].value, t.value, nullval)
    case User(fields) =>
      && t.UserType? && DistinctNames(fields) && DistinctTypes(t.fieldTypes)
      && forall i :: 0 <= i < |fields| ==>
           var k := IndexOf(t.fieldTypes, fields[i].name);
           k < |t.fieldTypes| && Fits(fields[i].value, t.fieldTypes[k].value, nullval)
  }

  /** A field name that is printed, which is done without quotes, as it will be read. */
  ghost predicate LegibleName(name: string) {
    name != "" && CleanWord(name) && Plain(name)
  }

  /** All field names inside the value are legible. */
  ghost predicate Legible(v: Value)
    decreases v
  {
    match v
    case Coll(_, elems) => forall i :: 0 <= i < |elems| ==> Legible(elems[i])
    case Map(entries) => forall i :: 0 <= i < |entries| ==> Legible(entries[i].key) && Legible(entries[i].value)
    case User(fields) => forall i :: 0 <= i < |fields| ==> LegibleName(fields[i].name) && Legible(fields[i].value)
    case _ => true
  }

  // ---- printed values are transparent to the split ----

  ghost predicate Sep(sep: char) {
    sep == ',' || sep == ':'
  }

  lemma NeutralWord(w: string, sep: char, level: int)
    requires CleanWord(w) && Sep(sep)
    ensures Neutral(w, sep, level)
  {
    NeutralOrdinary(w, sep, level);
  }

  /** `key: value` below the top level, or at the top level when looking for commas. */
  lemma NeutralPair(key: string, value: string, sep: char, level: int)
    requires Neutral(key, sep, level) && Neutral(value, sep, level) && (sep == ',' || (sep == ':' && level != 1))
    ensures Neutral(key + ": " + value, sep, level)
  {
    NeutralOrdinary(": ", sep, level);
    NeutralJoin(key, ": ", sep, level);
    NeutralJoin(key + ": ", value, sep, level);
  }

  lemma NeutralLiteral(open: char, parts: seq<string>, close: char, sep: char, level: int)
    requires IsOpen(open) && IsClose(close) && Sep(sep) && level >= 1
    requires AllNeutral(parts, sep, level + 1)
    ensures Neutral([open] + Join(parts) + [close], sep, level)
  {
    NeutralJoined(parts, sep, level + 1);
    NeutralBracketed(open, Join(parts), close, sep, level);
  }

  lemma {:induction false} LitNeutral(v: Value, t: Type, nullval: string, sep: char, level: int)
    requires Fits(v, t, nullval) && Legible(v) && Sep(sep) && level >= 1
    ensures Neutral(Lit(v, nullval), sep, level)
    decreases v, 1
  {
    match v
    case Null => NeutralWord(nullval, sep, level);
    case Int(n) => NeutralNumber(n, sep, level);
    case Text(s) => NeutralQuoted(s, sep, level);
    case Coll(kind, elems) =>
      PartsNeutral(v, t, nullval, sep, level + 1);
      NeutralLiteral(OpenOf(kind), Parts(v, nullval), CloseOf(kind), sep, level);
    case Map(entries) =>
      PartsNeutral(v, t, nullval, sep, level + 1);
      NeutralLiteral('{', Parts(v, nullval), '}', sep, level);
    case User(fields) =>
      PartsNeutral(v, t, nullval, sep, level + 1);
      NeutralLiteral('{', Parts(v, nullval), '}', sep, level);
  }

  /** The components too, except that a pair shows its own colon at the top level. */
  lemma {:induction false} PartsNeutral(v: Value, t: Type, nullval: string, sep: char, level: int)
    requires Fits(v, t, nullval) && Legible(v) && Sep(sep) && level >= 1 && (sep == ',' || level > 1)
    ensures AllNeutral(Parts(v, nullval), sep, level)
    decreases v, 0
  {
    match v
    case Coll(_, elems) =>
      forall i | 0 <= i < |elems|
        ensures Neutral(Parts(v, nullval)[i], sep, level)
      {
        LitNeutral(elems[i], SubType(t, i), nullval, sep, level);
      }
    case Map(entries) =>
      forall i | 0 <= i < |entries|
        ensures Neutral(Parts(v, nullval)[i], sep, level)
      {
        LitNeutral(entries[i].key, t.key, nullval, sep, level);
        LitNeutral(entries[i].value, t.value, nullval, sep, level);
        NeutralPair(Lit(entries[i].key, nullval), Lit(entries[i].value, nullval), sep, level);
      }
    case User(fields) =>
      forall i | 0 <= i < |fields|
        ensures Neutral(Parts(v, nullval)[i], sep, level)
      {
        ShownPlain(fields[i].name);
        NeutralWord(fields[i].name, sep, level);
        LitNeutral(fields[i].value, t.fieldTypes[IndexOf(t.fieldTypes, fields[i].name)].value, nullval, sep, level);
        NeutralPair(fields[i].name, Lit(fields[i].value, nullval), sep, level);
      }
    case _ =>
  }

  // ---- what reading a printed value gives ----

  /** The printed value without its outer quotes. */
  function Key(v: Value, nullval: string): string {
    if v.Text? then Shown(v.s) else Lit(v, nullval)
  }

  /** Exactly what comes back: text as shown, an error where a mandatory component reads as the null
      marker or a user type has a name that is not permitted, null where an optional component reads
      as the null marker, and user types in the order of their declaration. */
  ghost function Reread(v: Value, t: Type, nullval: string): Option<Value>
    requires Fits(v, t, nullval) && !v.Null?
    decreases v, 2
  {
    match v
    case Int(_) => Some(v)
    case Text(s) => Some(Text(Shown(s)))
    case Coll(kind, _) => MakeColl(kind, Sequence(RereadElements(v, t, nullval)))
    case Map(_) => MakeMap(Sequence(RereadEntries(v, t, nullval)))
    case User(_) =>
      if !NamesPermitted(t.typeName, t.fieldTypes) then None else MakeUser(Sequence(RereadFields(v, t, nullval)))
  }

  ghost function RereadElements(v: Value, t: Type, nullval: string): (rs: seq<Option<Value>>)
    requires Fits(v, t, nullval) && v.Coll?
    ensures |rs| == |v.elems|
    decreases v, 0
  {
    seq(|v.elems|, i requires 0 <= i < |v.elems| => RereadMandatory(v.elems[i], SubType(t, i), nullval))
  }

  ghost function RereadEntries(v: Value, t: Type, nullval: string): (rs: seq<Option<Entry>>)
    requires Fits(v, t, nullval) && v.Map?
    ensures |rs| == |v.entries|
    decreases v, 0
  {
    var es := v.entries;
    seq(|es|, i requires 0 <= i < |es| =>
      MakeEntry(RereadMandatory(es[i].key, t.key, nullval), RereadOptional(es[i].value, t.value, nullval)))
  }

  ghost function RereadFields(v: Value, t: Type, nullval: string): (rs: seq<Option<Field<Value>>>)
    requires Fits(v, t, nullval) && v.User?
    ensures |rs| == |t.fieldTypes|
    decreases v, 1
  {
    seq(|t.fieldTypes|, k requires 0 <= k < |t.fieldTypes| => RereadField(v, t, nullval, k))
  }

  /** The declared field number `k`. */
  ghost function RereadField(v: Value, t: Type, nullval: string, k: nat): Option<Field<Value>>
    requires Fits(v, t, nullval) && v.User? && k < |t.fieldTypes|
    decreases v, 0
  {
    var ft := t.fieldTypes[k];
    var i := IndexOf(v.fields, ft.name);
    MakeField(ft.name, if i == |v.fields| then Some(Null) else RereadOptional(v.fields[i].value, ft.value, nullval))
  }

  ghost function RereadMandatory(v: Value, t: Type, nullval: string): Option<Value>
    requires Fits(v, t, nullval) && !v.Null?
    decreases v, 3
  {
    if Key(v, nullval) == nullval then None else Reread(v, t, nullval)
  }

  ghost function RereadOptional(v: Value, t: Type, nullval: string): Option<Value>
    requires Fits(v, t, nullval)
    decreases v, 3
  {
    if v.Null? || Key(v, nullval) == nullval then Some(Null) else Reread(v, t, nullval)
  }

  // ---- reading a printed value gives exactly that ----

  lemma DequoteBracketed(open: char, inner: string, close: char)
    requires IsOpen(open) && IsClose(close)
    ensures var w := [open] + inner + [close];
      w != "" && DequoteValue(w) == w == DequoteValue(" " + w)
  {
    Inside(open, inner, close);
    DequoteBare([open] + inner + [close]);
  }

  lemma DequoteText(s: string)
    ensures var w := "'" + Escaped(s) + "'";
      w != "" && DequoteValue(w) == Shown(s) == DequoteValue(" " + w)
  {
    DequoteQuoted(Escaped(s));
    UndoubledEscaped(s);
  }

  lemma DequoteLit(v: Value, nullval: string)
    requires !v.Null?
    ensures Lit(v, nullval) != ""
        && DequoteValue(Lit(v, nullval)) == Key(v, nullval) == DequoteValue(" " + Lit(v, nullval))
  {
    match v
    case Text(s) => DequoteText(s);
    case Int(n) =>
      NeutralNumber(n, ',', 1);
      DequoteBare(IntText(n));
    case Coll(kind, _) => DequoteBracketed(OpenOf(kind), Join(Parts(v, nullval)), CloseOf(kind));
    case Map(_) => DequoteBracketed('{', Join(Parts(v, nullval)), '}');
    case User(_) => DequoteBracketed('{', Join(Parts(v, nullval)), '}');
  }

  lemma DequoteClean(w: string)
    requires CleanWord(w)
    ensures DequoteValue(w) == w == DequoteValue(" " + w)
  {
    if w == "" {
      assert (" " + w)[1..] == "";
    } else {
      DequoteBare(w);
    }
  }

  /** Splitting a printed composite gives its components. */
  lemma SplitLit(v: Value, t: Type, nullval: string)
    requires Fits(v, t, nullval) && Legible(v) && (v.Coll? || v.Map? || v.User?)
    ensures Split(Lit(v, nullval), ',') == Some(Spaced(Parts(v, nullval), true))
  {
    var parts := Parts(v, nullval);
    PartsNeutral(v, t, nullval, ',', 1);
    if v.Coll? {
      forall i | 0 <= i < |parts|
        ensures parts[i] != ""
      {
        DequoteLit(v.elems[i], nullval);
      }
      SplitJoined(OpenOf(v.kind), parts, CloseOf(v.kind));
    } else {
      SplitJoined('{', parts, '}');
    }
  }

  /** One `key: value` component, with or without its leading space. */
  lemma PairOfPart(key: string, value: string, first: bool)
    requires Neutral(key, ':', 1) && Neutral(value, ':', 1)
    ensures var piece := if first then key + ": " + value else " " + (key + ": " + value);
      PairOf(piece) == Some((if first then key else " " + key, " " + value))
  {
    if first {
      SplitPair(key, value);
    } else {
      NeutralOrdinary(" ", ':', 1);
      NeutralJoin(" ", key, ':', 1);
      SplitPair(" " + key, value);
      assert " " + (key + ": " + value) == " " + key + ": " + value;
    }
  }

  ghost predicate Named(ps: seq<(string, string)>, name: string) {
    exists i :: 0 <= i < |ps| && ps[i].0 == name
  }

  /** Pairs with distinct names make a dictionary of exactly these names and values. */
  lemma {:induction false} DictHas(ps: seq<(string, string)>)
    requires forall i, j :: 0 <= i < j < |ps| ==> ps[i].0 != ps[j].0
    ensures forall i :: 0 <= i < |ps| ==> ps[i].0 in Dict(ps) && Dict(ps)[ps[i].0] == ps[i].1
    ensures forall n :: n in Dict(ps) ==> Named(ps, n)
    decreases |ps|
  {
    if ps != [] {
      var k := |ps| - 1;
      DictHas(ps[..k]);
      forall n | n in Dict(ps)
        ensures Named(ps, n)
      {
        if n != ps[k].0 {
          assert Named(ps[..k], n);
          var i :| 0 <= i < k && ps[..k][i].0 == n;
          assert ps[i].0 == n;
        }
      }
    }
  }

  lemma {:induction false} ConvertLit(v: Value, t: Type, nullval: string)
    requires Fits(v, t, nullval) && Legible(v) && !v.Null?
    ensures Convert(t, Key(v, nullval), nullval) == Reread(v, t, nullval)
    decreases v, 3
  {
    match v
    case Int(n) => IntRoundTrip(n);
    case Text(_) =>
    case Coll(_, _) =>
      SplitLit(v, t, nullval);
      ConvertColl(v, t, nullval);
    case Map(_) =>
      SplitLit(v, t, nullval);
      ConvertMap(v, t, nullval);
    case User(_) =>
      SplitLit(v, t, nullval);
      ConvertUser(v, t, nullval);
  }

  lemma MandatoryLit(v: Value, t: Type, nullval: string)
    requires Fits(v, t, nullval) && Legible(v) && !v.Null?
    ensures Mandatory(t, Lit(v, nullval), nullval) == RereadMandatory(v, t, nullval) ==
        Mandatory(t, " " + Lit(v, nullval), nullval)
    decreases v, 4
  {
    DequoteLit(v, nullval);
    ConvertLit(v, t, nullval);
  }

  lemma OptionalLit(v: Value, t: Type, nullval: string)
    requires Fits(v, t, nullval) && Legible(v)
    ensures Optional(t, " " + Lit(v, nullval), nullval) == RereadOptional(v, t, nullval)
    decreases v, 4
  {
    if v.Null? {
      DequoteClean(nullval);
    } else {
      DequoteLit(v, nullval);
      ConvertLit(v, t, nullval);
    }
  }

  lemma ConvertColl(v: Value, t: Type, nullval: string)
    requires Fits(v, t, nullval) && Legible(v) && v.Coll?
    ensures ConvertPieces(t, Spaced(Parts(v, nullval), true), nullval) == Reread(v, t, nullval)
    decreases v, 0
  {
    var now, want := Elements(t, Spaced(Parts(v, nullval), true), nullval), RereadElements(v, t, nullval);
    forall i | 0 <= i < |v.elems|
      ensures now[i] == want[i]
    {
      MandatoryLit(v.elems[i], SubType(t, i), nullval);
    }
    assert now == want;
  }

  /** The printed entries come apart into key and value again. */
  lemma MapPairs(v: Value, t: Type, nullval: string, i: nat)
    requires Fits(v, t, nullval) && Legible(v) && v.Map? && i < |v.entries|
    ensures var e := v.entries[i];
      PairOf(Spaced(Parts(v, nullval), true)[i]) ==
      Some((if i == 0 then Lit(e.key, nullval) else " " + Lit(e.key, nullval), " " + Lit(e.value, nullval)))
  {
    var e := v.entries[i];
    LitNeutral(e.key, t.key, nullval, ':', 1);
    LitNeutral(e.value, t.value, nullval, ':', 1);
    PairOfPart(Lit(e.key, nullval), Lit(e.value, nullval), i == 0);
  }

  lemma EntryLit(e: Entry, key: Type, value: Type, nullval: string, first: bool)
    requires Fits(e.key, key, nullval) && !e.key.Null? && Fits(e.value, value, nullval) && Legible(e.key)
        && Legible(e.value)
    ensures Mandatory(key, if first then Lit(e.key, nullval) else " " + Lit(e.key, nullval), nullval) ==
        RereadMandatory(e.key, key, nullval)
    ensures Optional(value, " " + Lit(e.value, nullval), nullval) == RereadOptional(e.value, value, nullval)
    decreases e, 3
  {
    MandatoryLit(e.key, key, nullval);
    OptionalLit(e.value, value, nullval);
  }

  lemma ConvertMap(v: Value, t: Type, nullval: string)
    requires Fits(v, t, nullval) && Legible(v) && v.Map?
    ensures ConvertPieces(t, Spaced(Parts(v, nullval), true), nullval) == Reread(v, t, nullval)
    decreases v, 0
  {
    var pieces, es := Spaced(Parts(v, nullval), true), v.entries;
    var ps := EntryPairs(v, nullval);
    forall i | 0 <= i < |es|
      ensures Pairs(pieces)[i] == Some(ps[i])
    {
      MapPairs(v, t, nullval, i);
    }
    SequenceIs(Pairs(pieces), ps);
    var now, want := Entries(t, ps, nullval), RereadEntries(v, t, nullval);
    forall i | 0 <= i < |es|
      ensures now[i] == want[i]
    {
      EntryLit(es[i], t.key, t.value, nullval, i == 0);
    }
    assert now == want;
  }

  ghost function EntryPairs(v: Value, nullval: string): (ps: seq<(string, string)>)
    requires v.Map?
    ensures |ps| == |v.entries|
  {
    var es := v.entries;
    seq(|es|, i requires 0 <= i < |es| =>
      (if i == 0 then Lit(es[i].key, nullval) else " " + Lit(es[i].key, nullval), " " + Lit(es[i].value, nullval)))
  }

  /** The printed fields come apart into name and value again. */
  lemma UserPairs(v: Value, t: Type, nullval: string, i: nat)
    requires Fits(v, t, nullval) && Legible(v) && v.User? && i < |v.fields|
    ensures var f := v.fields[i];
      PairOf(Spaced(Parts(v, nullval), true)[i]) ==
          Some((if i == 0 then f.name else " " + f.name, " " + Lit(f.value, nullval)))
  {
    var f := v.fields[i];
    ShownPlain(f.name);
    NeutralWord(f.name, ':', 1);
    LitNeutral(f.value, t.fieldTypes[IndexOf(t.fieldTypes, f.name)].value, nullval, ':', 1);
    PairOfPart(f.name, Lit(f.value, nullval), i == 0);
  }

  ghost function FieldPairs(v: Value, nullval: string): (ps: seq<(string, string)>)
    requires v.User?
    ensures |ps| == |v.fields|
  {
    seq(|v.fields|, i requires 0 <= i < |v.fields| =>
      (if i == 0 then v.fields[i].name else " " + v.fields[i].name, " " + Lit(v.fields[i].value, nullval)))
  }

  lemma UserDict(v: Value, t: Type, nullval: string)
    requires Fits(v, t, nullval) && Legible(v) && v.User?
    ensures var dict := Dict(Dequoted(FieldPairs(v, nullval)));
      && (forall i :: 0 <= i < |v.fields| ==>
          v.fields[i].name in dict && dict[v.fields[i].name] == " " + Lit(v.fields[i].value, nullval))
      && (forall n :: n in dict ==> exists i :: 0 <= i < |v.fields| && v.fields[i].name == n)
  {
    var ps := Dequoted(FieldPairs(v, nullval));
    forall i | 0 <= i < |ps|
      ensures ps[i] == (v.fields[i].name, " " + Lit(v.fields[i].value, nullval))
    {
      DequoteClean(v.fields[i].name);
    }
    DictHas(ps);
    forall n | n in Dict(ps)
      ensures exists i :: 0 <= i < |v.fields| && v.fields[i].name == n
    {
      assert Named(ps, n);
    }
  }

  /** One declared field, looked up in the dictionary. */
  lemma FieldLit(v: Value, t: Type, nullval: string, k: nat)
    requires Fits(v, t, nullval) && Legible(v) && v.User? && k < |t.fieldTypes|
    ensures var ft := t.fieldTypes[k]; var i := IndexOf(v.fields, ft.name);
      FieldValue(ft.value, ft.name, Dict(Dequoted(FieldPairs(v, nullval))), nullval) ==
      if i == |v.fields| then Some(Null) else RereadOptional(v.fields[i].value, ft.value, nullval)
    decreases v, -1
  {
    var ft := t.fieldTypes[k];
    var i := IndexOf(v.fields, ft.name);
    UserDict(v, t, nullval);
    if i < |v.fields| {
      assert IndexOf(t.fieldTypes, v.fields[i].name) == k;
      OptionalLit(v.fields[i].value, ft.value, nullval);
    }
  }

  lemma ConvertUser(v: Value, t: Type, nullval: string)
    requires Fits(v, t, nullval) && Legible(v) && v.User?
    ensures ConvertPieces(t, Spaced(Parts(v, nullval), true), nullval) == Reread(v, t, nullval)
    decreases v, 2
  {
    NamesExact(t.typeName, t.fieldTypes);
    if NamesPermitted(t.typeName, t.fieldTypes) {
      ConvertPermitted(v, t, nullval);
    }
  }

  lemma ConvertPermitted(v: Value, t: Type, nullval: string)
    requires Fits(v, t, nullval) && Legible(v) && v.User? && NamesPermitted(t.typeName, t.fieldTypes)
    ensures ConvertPieces(t, Spaced(Parts(v, nullval), true), nullval) == Reread(v, t, nullval)
    decreases v, 1
  {
    var pieces, ps := Spaced(Parts(v, nullval), true), FieldPairs(v, nullval);
    forall i | 0 <= i < |ps|
      ensures Pairs(pieces)[i] == Some(ps[i])
    {
      UserPairs(v, t, nullval, i);
    }
    SequenceIs(Pairs(pieces), ps);
    UserPieces(t, pieces, ps, nullval);
    FieldsLit(v, t, nullval);
  }

  /** Pieces that are pairs, for a class that can be made. */
  lemma UserPieces(t: Type, pieces: seq<string>, ps: seq<(string, string)>, nullval: string)
    requires t.UserType? && NamesPermitted(t.typeName, t.fieldTypes) && Sequence(Pairs(pieces)) == Some(ps)
    ensures ConvertPieces(t, pieces, nullval) == MakeUser(Sequence(NamedFields(t, Dict(Dequoted(ps)), nullval)))
  {
    NamesExact(t.typeName, t.fieldTypes);
  }

  lemma FieldsLit(v: Value, t: Type, nullval: string)
    requires Fits(v, t, nullval) && Legible(v) && v.User?
    ensures NamedFields(t, Dict(Dequoted(FieldPairs(v, nullval))), nullval) == RereadFields(v, t, nullval)
    decreases v, 0
  {
    var dict := Dict(Dequoted(FieldPairs(v, nullval)));
    var now, want := NamedFields(t, dict, nullval), RereadFields(v, t, nullval);
    forall k | 0 <= k < |t.fieldTypes|
      ensures now[k] == want[k]
    {
      var ft := t.fieldTypes[k];
      FieldLit(v, t, nullval, k);
      assert now[k] == MakeField(ft.name, FieldValue(ft.value, ft.name, dict, nullval));
      assert want[k] == RereadField(v, t, nullval, k);
    }
    assert now == want;
  }

  // ---- when the value itself comes back ----

  /** Text without backslashes and control characters; no component that reads like the null marker;
      user types with permitted names, complete and in the order of their declaration. */
  ghost predicate Faithful(v: Value, t: Type, nullval: string)
    requires Fits(v, t, nullval)
    decreases v, 1
  {
    match v
    case Null => true
    case Int(_) => true
    case Text(s) => Plain(s)
    case Coll(_, elems) =>
      forall i :: 0 <= i < |elems| ==> Key(elems[i], nullval) != nullval && Faithful(elems[i], SubType(t, i), nullval)
    case Map(entries) =>
      forall i :: 0 <= i < |entries| ==>
        && Key(entries[i].key, nullval) != nullval && Faithful(entries[i].key, t.key, nullval)
        && Key(entries[i].value, nullval) != nullval && Faithful(entries[i].value, t.value, nullval)
    case User(fields) =>
      && NamesPermitted(t.typeName, t.fieldTypes) && |fields| == |t.fieldTypes|
      && forall i :: 0 <= i < |fields| ==> fields[i].name == t.fieldTypes[i].name && FaithfulField(v, t, nullval, i)
  }

  ghost predicate FaithfulField(v: Value, t: Type, nullval: string, i: nat)
    requires Fits(v, t, nullval) && v.User? && i < |v.fields|
    decreases v, 0
  {
    var value, k := v.fields[i].value, IndexOf(t.fieldTypes, v.fields[i].name);
    value.Null? || (Key(value, nullval) != nullval && Faithful(value, t.fieldTypes[k].value, nullval))
  }

  lemma OptionalFaithful(v: Value, t: Type, nullval: string)
    requires Fits(v, t, nullval)
    ensures RereadOptional(v, t, nullval) == Some(v) <==>
        v.Null? || (Key(v, nullval) != nullval && Faithful(v, t, nullval))
    decreases v, 3
  {
    if !v.Null? {
      RereadFaithful(v, t, nullval);
    }
  }

  lemma {:induction false} RereadFaithful(v: Value, t: Type, nullval: string)
    requires Fits(v, t, nullval) && !v.Null?
    ensures Reread(v, t, nullval) == Some(v) <==> Faithful(v, t, nullval)
    decreases v, 2
  {
    match v
    case Int(_) =>
    case Text(s) => ShownPlain(s);
    case Coll(_, _) => CollFaithful(v, t, nullval);
    case Map(_) => MapFaithful(v, t, nullval);
    case User(_) => UserFaithful(v, t, nullval);
  }

  lemma CollFaithful(v: Value, t: Type, nullval: string)
    requires Fits(v, t, nullval) && v.Coll?
    ensures Reread(v, t, nullval) == Some(v) <==> Faithful(v, t, nullval)
    decreases v, 1
  {
    var rs, elems := RereadElements(v, t, nullval), v.elems;
    SequenceIs(rs, elems);
    forall i | 0 <= i < |elems|
      ensures rs[i] == Some(elems[i]) <==>
              Key(elems[i], nullval) != nullval && Faithful(elems[i], SubType(t, i), nullval)
    {
      assert rs[i] == RereadMandatory(elems[i], SubType(t, i), nullval);
      RereadFaithful(elems[i], SubType(t, i), nullval);
    }
  }

  lemma MapFaithful(v: Value, t: Type, nullval: string)
    requires Fits(v, t, nullval) && v.Map?
    ensures Reread(v, t, nullval) == Some(v) <==> Faithful(v, t, nullval)
    decreases v, 1
  {
    var rs, es := RereadEntries(v, t, nullval), v.entries;
    SequenceIs(rs, es);
    forall i | 0 <= i < |es|
      ensures rs[i] == Some(es[i]) <==>
              && Key(es[i].key, nullval) != nullval && Faithful(es[i].key, t.key, nullval)
              && Key(es[i].value, nullval) != nullval && Faithful(es[i].value, t.value, nullval)
    {
      RereadFaithful(es[i].key, t.key, nullval);
      OptionalFaithful(es[i].value, t.value, nullval);
    }
  }

  lemma FieldFaithful(v: Value, t: Type, nullval: string, i: nat)
    requires Fits(v, t, nullval) && v.User? && i < |v.fields| && i < |t.fieldTypes|
    requires v.fields[i].name == t.fieldTypes[i].name
    ensures RereadField(v, t, nullval, i) == Some(v.fields[i]) <==> FaithfulField(v, t, nullval, i)
    decreases v, -1
  {
    assert IndexOf(v.fields, t.fieldTypes[i].name) == i == IndexOf(t.fieldTypes, v.fields[i].name);
    OptionalFaithful(v.fields[i].value, t.fieldTypes[i].value, nullval);
  }

  lemma UserFaithful(v: Value, t: Type, nullval: string)
    requires Fits(v, t, nullval) && v.User?
    ensures Reread(v, t, nullval) == Some(v) <==> Faithful(v, t, nullval)
    decreases v, 1
  {
    if NamesPermitted(t.typeName, t.fieldTypes) {
      PermittedFaithful(v, t, nullval);
    }
  }

  lemma PermittedFaithful(v: Value, t: Type, nullval: string)
    requires Fits(v, t, nullval) && v.User? && NamesPermitted(t.typeName, t.fieldTypes)
    ensures Reread(v, t, nullval) == Some(v) <==> Faithful(v, t, nullval)
    decreases v, 0
  {
    var fields, fts := v.fields, t.fieldTypes;
    var rs := RereadFields(v, t, nullval);
    forall i | 0 <= i < |fields| && i < |fts|
      ensures rs[i] == Some(fields[i]) <==> fields[i].name == fts[i].name && FaithfulField(v, t, nullval, i)
    {
      assert rs[i] == RereadField(v, t, nullval, i);
      if fields[i].name == fts[i].name {
        FieldFaithful(v, t, nullval, i);
      }
    }
    SequenceIs(rs, fields);
  }

  // ---- permitted names are legible ----

  lemma PermittedLegible(name: string)
    requires Identifier(name)
    ensures LegibleName(name)
  {
    SpaceIs(name[0]);
    SpaceIs(name[|name| - 1]);
  }

  lemma {:induction false} FaithfulLegible(v: Value, t: Type, nullval: string)
    requires Fits(v, t, nullval) && Faithful(v, t, nullval)
    ensures Legible(v)
    decreases v
  {
    match v
    case Coll(_, elems) =>
      forall i | 0 <= i < |elems|
        ensures Legible(elems[i])
      {
        FaithfulLegible(elems[i], SubType(t, i), nullval);
      }
    case Map(es) =>
      forall i | 0 <= i < |es|
        ensures Legible(es[i].key) && Legible(es[i].value)
      {
        FaithfulLegible(es[i].key, t.key, nullval);
        FaithfulLegible(es[i].value, t.value, nullval);
      }
    case User(fields) =>
      forall i | 0 <= i < |fields|
        ensures LegibleName(fields[i].name) && Legible(fields[i].value)
      {
        assert FaithfulField(v, t, nullval, i);
        PermittedLegible(t.fieldTypes[i].name);
        if !fields[i].value.Null? {
          FaithfulLegible(fields[i].value, t.fieldTypes[IndexOf(t.fieldTypes, fields[i].name)].value, nullval);
        }
      }
    case _ =>
  }

  /** Whatever text is read, the value that comes out has only legible names. */
  lemma {:induction false} ConvertLegible(t: Type, w: string, nullval: string)
    requires Convert(t, w, nullval).Some?
    ensures Legible(Convert(t, w, nullval).value)
    decreases t, 2
  {
    if !t.IntType? && !t.TextType? {
      PiecesLegible(t, Split(w, ',').value, nullval);
    }
  }

  lemma OptionalLegible(t: Type, piece: string, nullval: string)
    requires Optional(t, piece, nullval).Some?
    ensures Legible(Optional(t, piece, nullval).value)
    decreases t, 3
  {
    if DequoteValue(piece) != nullval {
      ConvertLegible(t, DequoteValue(piece), nullval);
    }
  }

  lemma {:induction false} PiecesLegible(t: Type, pieces: seq<string>, nullval: string)
    requires !t.IntType? && !t.TextType? && ConvertPieces(t, pieces, nullval).Some?
    ensures Legible(ConvertPieces(t, pieces, nullval).value)
    decreases t, 1
  {
    var v := ConvertPieces(t, pieces, nullval).value;
    if t.MapType? {
      EntriesLegible(t, Sequence(Pairs(pieces)).value, v.entries, nullval);
    } else if t.UserType? {
      NamesExact(t.typeName, t.fieldTypes);
      FieldsLegible(t, Dict(Dequoted(Sequence(Pairs(pieces)).value)), v.fields, nullval);
    } else {
      ElementsLegible(t, pieces, v.kind, v.elems, nullval);
    }
  }

  lemma {:induction false} ElementsLegible(t: Type, pieces: seq<string>, kind: Kind, elems: seq<Value>, nullval: string)
    requires (t.ElemType? || t.TupleType?) && Sequence(Elements(t, pieces, nullval)) == Some(elems)
    ensures Legible(Coll(kind, elems))
    decreases t, 0
  {
    SequenceIs(Elements(t, pieces, nullval), elems);
    forall i | 0 <= i < |elems|
      ensures Legible(elems[i])
    {
      assert Elements(t, pieces, nullval)[i] == Mandatory(SubType(t, i), pieces[i], nullval);
      ConvertLegible(SubType(t, i), DequoteValue(pieces[i]), nullval);
    }
  }

  lemma {:induction false} EntriesLegible(t: Type, ps: seq<(string, string)>, es: seq<Entry>, nullval: string)
    requires t.MapType? && Sequence(Entries(t, ps, nullval)) == Some(es)
    ensures Legible(Map(es))
    decreases t, 0
  {
    SequenceIs(Entries(t, ps, nullval), es);
    forall i | 0 <= i < |es|
      ensures Legible(es[i].key) && Legible(es[i].value)
    {
      assert Entries(t, ps, nullval)[i] == Some(es[i]);
      ConvertLegible(t.key, DequoteValue(ps[i].0), nullval);
      OptionalLegible(t.value, ps[i].1, nullval);
    }
  }

  lemma {:induction false} FieldsLegible(
    t: Type, dict: map<string, string>, fields: seq<Field<Value>>, nullval: string)
    requires t.UserType? && NamesPermitted(t.typeName, t.fieldTypes)
    requires Sequence(NamedFields(t, dict, nullval)) == Some(fields)
    ensures Legible(User(fields))
    decreases t, 0
  {
    var fts := t.fieldTypes;
    SequenceIs(NamedFields(t, dict, nullval), fields);
    forall i | 0 <= i < |fields|
      ensures LegibleName(fields[i].name) && Legible(fields[i].value)
    {
      assert NamedFields(t, dict, nullval)[i] == Some(fields[i]);
      PermittedLegible(fts[i].name);
      if fts[i].name in dict {
        OptionalLegible(fts[i].value, dict[fts[i].name], nullval);
      }
    }
  }

  /** The round trip: a printed collection, tuple, map or user type is read back as the same value
      exactly when the value is faithful. */
  lemma LiteralRoundTrip(v: Value, t: Type, nullval: string)
    requires Fits(v, t, nullval) && (v.Coll? || v.Map? || v.User?)
    ensures Convert(t, Lit(v, nullval), nullval) == Some(v) <==> Faithful(v, t, nullval)
  {
    if Faithful(v, t, nullval) {
      FaithfulLegible(v, t, nullval);
    }
    if Convert(t, Lit(v, nullval), nullval) == Some(v) {
      ConvertLegible(t, Lit(v, nullval), nullval);
    }
    if Legible(v) {
      ConvertLit(v, t, nullval);
      RereadFaithful(v, t, nullval);
    }
  }

  // ---- values that do not come back ----

  const TEXT_LIST: Type := ElemType(AsList, TextType)

  /** A list of one text. */
  function OneText(s: string): Value {
    Coll(AsList, [Text(s)])
  }

  lemma OneTextReread(s: string, nullval: string)
    ensures Reread(OneText(s), ElemType(AsList, TextType), nullval) ==
            if Shown(s) == nullval then None else Some(OneText(Shown(s)))
  {
    var v, t := OneText(s), ElemType(AsList, TextType);
    var r := RereadMandatory(Text(s), TextType, nullval);
    var rs := RereadElements(v, t, nullval);
    assert Reread(Text(s), TextType, nullval) == Some(Text(Shown(s)));
    assert r == if Shown(s) == nullval then None else Some(Text(Shown(s)));
    assert rs == [r];
    OneResult(r);
  }

  lemma OneResult<T>(r: Option<T>)
    ensures Sequence([r]) == if r.None? then None else Some([r.value])
  {
    if r.Some? {
      SequenceIs([r], [r.value]);
    }
  }

  /** How any list of one text is read back. */
  lemma OneTextRead(s: string, shown: string, nullval: string)
    requires shown == Shown(s)
    ensures Convert(TEXT_LIST, Lit(OneText(s), nullval), nullval) ==
            if shown == nullval then None else Some(OneText(shown))
  {
    OneTextReread(s, nullval);
    ConvertLit(OneText(s), ElemType(AsList, TextType), nullval);
  }

  lemma ShownBackslash()
    ensures Shown("") == "" && Shown("\\") == "\\\\"
  {
    assert Shown("\\") == ShowChar('\\') + Shown("");
  }

  /** With the default null marker an empty text in a list is refused, and a backslash comes back twice. */
  lemma TextsLost()
    ensures Convert(TEXT_LIST, Lit(OneText(""), ""), "") == None
    ensures Convert(TEXT_LIST, Lit(OneText("\\"), ""), "") == Some(OneText("\\\\"))
  {
    ShownBackslash();
    OneTextRead("", "", "");
    OneTextRead("\\", "\\\\", "");
  }

  /** A user type with a name that is not permitted is refused, whatever the text. */
  lemma NameRefused(t: Type, w: string, nullval: string)
    requires t.UserType? && !NamesPermitted(t.typeName, t.fieldTypes)
    ensures Convert(t, w, nullval) == None
  {
    NamesExact(t.typeName, t.fieldTypes);
  }

  /** A user type with a field called `class`, an ordinary name in CQL, and a value of it. */
  const CLASS_TYPE: Type := UserType("point", [Field("class", IntType)])

  function ClassValue(n: int): Value {
    User([Field("class", Int(n))])
  }

  lemma ClassFits(n: int, nullval: string)
    ensures Fits(ClassValue(n), CLASS_TYPE, nullval)
  {
    var field := CLASS_TYPE.fieldTypes[0];
    assert IndexOf(CLASS_TYPE.fieldTypes, field.name) == 0;
    assert Fits(Int(n), field.value, nullval);
  }

  lemma ClassLegible()
    ensures LegibleName("class")
  {
    var name := "class";
  }

  /** Every value of this type is lost, although its text is legible and nothing else is wrong with it. */
  lemma KeywordRefused(n: int, nullval: string)
    ensures Fits(ClassValue(n), CLASS_TYPE, nullval) && Legible(ClassValue(n))
    ensures Convert(CLASS_TYPE, Lit(ClassValue(n), nullval), nullval) == None
  {
    ClassFits(n, nullval);
    ClassLegible();
    assert CLASS_TYPE.fieldTypes[0].name in KEYWORDS;
    NameRefused(CLASS_TYPE, Lit(ClassValue(n), nullval), nullval);
  }

  /** The same fields in another order are read as the same value. */
  lemma FieldOrderIrrelevant(fields: seq<Field<Value>>, fields': seq<Field<Value>>, t: Type, nullval: string)
    requires Fits(User(fields), t, nullval) && Fits(User(fields'), t, nullval)
    requires Legible(User(fields)) && forall f :: f in fields <==> f in fields'
    ensures Convert(t, Lit(User(fields), nullval), nullval) == Convert(t, Lit(User(fields'), nullval), nullval)
  {
    assert forall i :: 0 <= i < |fields'| ==> fields'[i] in fields;
    ConvertLit(User(fields), t, nullval);
    ConvertLit(User(fields'), t, nullval);
    var fts := t.fieldTypes;
    forall k | 0 <= k < |fts|
      ensures var i, j := IndexOf(fields, fts[k].name), IndexOf(fields', fts[k].name);
        (i == |fields| <==> j == |fields'|) && (i < |fields| ==> fields[i] == fields'[j])
    {
      var i, j := IndexOf(fields, fts[k].name), IndexOf(fields', fts[k].name);
      if i < |fields| {
        assert fields[i] in fields';
        var m :| 0 <= m < |fields'| && fields'[m] == fields[i];
        assert m == j;
      }
      if j < |fields'| {
        assert fields'[j] in fields;
      }
    }
    RereadSame(fields, fields', t, nullval);
  }

  lemma RereadSame(fields: seq<Field<Value>>, fields': seq<Field<Value>>, t: Type, nullval: string)
    requires Fits(User(fields), t, nullval) && Fits(User(fields'), t, nullval)
    requires forall k :: 0 <= k < |t.fieldTypes| ==>
      var i, j := IndexOf(fields, t.fieldTypes[k].name), IndexOf(fields', t.fieldTypes[k].name);
      (i == |fields| <==> j == |fields'|) && (i < |fields| ==> fields[i] == fields'[j])
    ensures Reread(User(fields), t, nullval) == Reread(User(fields'), t, nullval)
  {
    var a, b := RereadFields(User(fields), t, nullval), RereadFields(User(fields'), t, nullval);
    forall k | 0 <= k < |t.fieldTypes|
      ensures a[k] == b[k]
    {
      assert a[k] == RereadField(User(fields), t, nullval, k) && b[k] == RereadField(User(fields'), t, nullval, k);
    }
    assert a == b;
  }
}
