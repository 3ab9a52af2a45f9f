/** What several components share: optional values, ASCII case, and concatenation of lists. */
module Common {

  datatype Option<T> = None | Some(value: T)

  function LowerChar(c: char): char {
    if 'A' <= c <= 'Z' then 'a' + (c - 'A') else c
  }

  function UpperChar(c: char): char {
    if 'a' <= c <= 'z' then 'A' + (c - 'a') else c
  }

  function Lower(s: string): string {
    seq(|s|, i requires 0 <= i < |s| => LowerChar(s[i]))
  }

  function Upper(s: string): string {
    seq(|s|, i requires 0 <= i < |s| => UpperChar(s[i]))
  }

  /** White space, as Python strips it. */
  predicate IsSpace(c: char) {
    c in " \t\n\r\U{b}\U{c}"
  }

  lemma SpaceIs(c: char)
    ensures IsSpace(c) <==> c as int == 32 || 9 <= c as int <= 13
  {
  }

  /** Only white space. */
  ghost predicate IsPad(s: string) {
    forall i :: 0 <= i < |s| ==> s[i] as int == 32 || 9 <= s[i] as int <= 13
  }

  /** The same character up to the case of ASCII letters. */
  predicate SameLetter(a: char, b: char) {
    || a == b
    || ('A' <= a <= 'Z' && b as int == a as int + 32)
    || ('A' <= b <= 'Z' && a as int == b as int + 32)
  }

  /** The same text up to the case of ASCII letters. */
  ghost predicate SameLetters(s: string, t: string) {
    |s| == |t| && forall i :: 0 <= i < |s| ==> SameLetter(s[i], t[i])
  }

  predicate NoCapitals(s: string) {
    forall i :: 0 <= i < |s| ==> !('A' <= s[i] <= 'Z')
  }

  predicate OnlyCapitals(s: string) {
    forall i :: 0 <= i < |s| ==> !('a' <= s[i] <= 'z')
  }

  lemma CharCaseIs(a: char, b: char)
    ensures LowerChar(a) == b <==> SameLetter(a, b) && !('A' <= b <= 'Z')
    ensures UpperChar(a) == b <==> SameLetter(a, b) && !('a' <= b <= 'z')
  {
  }

  /** A text in lower case is the one with the same letters and no capitals. */
  lemma LowerIs(s: string, t: string)
    ensures Lower(s) == t <==> SameLetters(s, t) && NoCapitals(t)
  {
    forall i | 0 <= i < |s| && i < |t|
      ensures Lower(s)[i] == t[i] <==> SameLetter(s[i], t[i]) && !('A' <= t[i] <= 'Z')
    {
      CharCaseIs(s[i], t[i]);
    }
    if SameLetters(s, t) && NoCapitals(t) {
      assert forall i :: 0 <= i < |s| ==> Lower(s)[i] == t[i];
    }
  }

  /** A text in upper case is the one with the same letters and no small ones. */
  lemma UpperIs(s: string, t: string)
    ensures Upper(s) == t <==> SameLetters(s, t) && OnlyCapitals(t)
  {
    forall i | 0 <= i < |s| && i < |t|
      ensures Upper(s)[i] == t[i] <==> SameLetter(s[i], t[i]) && !('a' <= t[i] <= 'z')
    {
      CharCaseIs(s[i], t[i]);
    }
    if SameLetters(s, t) && OnlyCapitals(t) {
      assert forall i :: 0 <= i < |s| ==> Upper(s)[i] == t[i];
    }
  }

  /** Two texts are equal in lower case exactly when they have the same letters. */
  lemma LowerAlike(s: string, t: string)
    ensures Lower(s) == Lower(t) <==> SameLetters(s, t)
  {
    LowerIs(s, Lower(t));
    LowerIs(t, Lower(t));
    LowerIs(t, Lower(s));
    LowerIs(s, Lower(s));
  }

  function Flatten<T>(pieces: seq<seq<T>>): seq<T> {
    if pieces == [] then [] else pieces[0] + Flatten(pieces[1..])
  }

  lemma {:induction false} FlattenJoin<T>(a: seq<seq<T>>, b: seq<seq<T>>)
    ensures Flatten(a + b) == Flatten(a) + Flatten(b)
  {
    if a == [] {
      assert a + b == b;
    } else {
      assert (a + b)[1..] == a[1..] + b;
      FlattenJoin(a[1..], b);
    }
  }

  lemma FlattenSnoc<T>(a: seq<seq<T>>, b: seq<T>)
    ensures Flatten(a + [b]) == Flatten(a) + b
  {
    FlattenJoin(a, [b]);
    assert Flatten([b]) == b + Flatten([]);
  }

  /** More at the end of the last list. */
  lemma FlattenGrow<T>(a: seq<seq<T>>, more: seq<T>)
    requires a != []
    ensures Flatten(a[..|a| - 1] + [a[|a| - 1] + more]) == Flatten(a) + more
  {
    var init, last := a[..|a| - 1], a[|a| - 1];
    assert a == init + [last];
    FlattenSnoc(init, last);
    FlattenSnoc(init, last + more);
    Regroup(Flatten(init), last, more);
  }

  lemma Regroup<T>(a: seq<T>, b: seq<T>, c: seq<T>)
    ensures a + b + c == a + (b + c)
  {
  }

  ghost predicate Distinct(path: seq<string>) {
    forall i, j :: 0 <= i < j < |path| ==> path[i] != path[j]
  }

  lemma {:induction false} DistinctBound(path: seq<string>, names: set<string>)
    requires Distinct(path) && forall i :: 0 <= i < |path| ==> path[i] in names
    ensures |path| <= |names|
  {
    if path != [] {
      var last := path[|path| - 1];
      DistinctBound(path[..|path| - 1], names - {last});
    }
  }

  /** How many elements the lists have together. */
  function TotalLength<T>(lists: seq<seq<T>>): nat {
    if lists == [] then 0 else |lists[0]| + TotalLength(lists[1..])
  }

  lemma {:induction false} TotalLengthUpdate<T>(lists: seq<seq<T>>, w: nat, list: seq<T>)
    requires w < |lists|
    ensures TotalLength(lists[w := list]) + |lists[w]| == TotalLength(lists) + |list|
  {
    if w == 0 {
      assert lists[0 := list][1..] == lists[1..];
    } else {
      TotalLengthUpdate(lists[1..], w - 1, list);
      assert lists[w := list][1..] == lists[1..][w - 1 := list];
    }
  }

  /** Quotient and remainder are determined by n == q * f + r with r below f. */
  lemma DividesAs(n: nat, q: nat, f: nat, r: nat)
    requires r < f && n == q * f + r
    ensures n / f == q && n % f == r
  {
    var a, b := n / f, n % f;
    assert n == a * f + b;
    Multiples(a, q, f);
    Multiples(q, a, f);
  }

  /** Different multiples of `f` are at least `f` apart. */
  lemma Multiples(x: nat, y: nat, f: nat)
    ensures x < y ==> x * f + f <= y * f
  {
    if x < y {
      var d := y - x - 1;
      assert y * f == x * f + f + d * f;
      assert d * f >= 0;
    }
  }
}
