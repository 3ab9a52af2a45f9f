/** Text-level pieces of CQL literals: quoting, stripping, decimal numbers and the bracket-aware split. */
module CqlText {
  import opened Common

  // ---- printing text ----

  const HEX := "0123456789abcdef"

  predicate IsControl(c: char) {
    c < ' ' || '\U{7f}' <= c <= '\U{a0}'
  }

  /** How Python shows a control character inside quotes. */
  function ShowControl(c: char): (s: string)
    requires IsControl(c)
    ensures |s| >= 2 && '\'' !in s
  {
    if c == '\t' then "\\t" else if c == '\n' then "\\n" else if c == '\r' then "\\r"
    else var n := c as int; assert n < 256; ['\\', 'x', HEX[n / 16], HEX[n % 16]]
  }

  /** One character of a printed text, before quotes are doubled. */
  function ShowChar(c: char): (s: string)
    ensures c != '\'' ==> s != [] && '\'' !in s
    ensures c == '\'' ==> s == "'"
    ensures |s| >= 1 && (|s| == 1 <==> c != '\\' && !IsControl(c)) && (|s| == 1 ==> s == [c])
  {
    if c == '\\' then "\\\\" else if IsControl(c) then ShowControl(c) else [c]
  }

  /** The value of a lower-case hexadecimal digit. */
  function HexValue(c: char): int {
    if '0' <= c <= '9' then c as int - 48 else if 'a' <= c <= 'f' then c as int - 87 else -1
  }

  lemma HexDigit(n: nat)
    requires n < 16
    ensures HexValue(HEX[n]) == n
  {
    assert HEX[..10] == "0123456789" && HEX[10..] == "abcdef";
  }

  /** A backslash is doubled; tab, newline and return have letters; every other control character is
      shown by its code in two hexadecimal digits. */
  lemma ShowCharExact(c: char)
    ensures
      var s := ShowChar(c);
      if c == '\\' then s == ['\\', '\\']
      else if c as int == 9 then s == ['\\', 't']
      else if c as int == 10 then s == ['\\', 'n']
      else if c as int == 13 then s == ['\\', 'r']
      else if c as int < 32 || 127 <= c as int <= 160 then
        |s| == 4 && s[..2] == ['\\', 'x'] && 16 * HexValue(s[2]) + HexValue(s[3]) == c as int
      else s == [c]
  {
    if c != '\\' && IsControl(c) {
      var n := c as int;
      HexDigit(n / 16);
      HexDigit(n % 16);
    }
  }

  function Shown(s: string): string {
    if s == "" then "" else ShowChar(s[0]) + Shown(s[1..])
  }

  /** The text between the quotes: shown characters, with quotes doubled. */
  function Escaped(s: string): string {
    if s == "" then "" else (if s[0] == '\'' then "''" else ShowChar(s[0])) + Escaped(s[1..])
  }

  /** No backslashes and no control characters. */
  ghost predicate Plain(s: string) {
    forall i :: 0 <= i < |s| ==> s[i] != '\\' && 32 <= s[i] as int && !(127 <= s[i] as int <= 160)
  }

  /** Printing shows exactly the plain texts as they are. */
  lemma {:induction false} ShownPlain(s: string)
    ensures |Shown(s)| >= |s|
    ensures Shown(s) == s <==> Plain(s)
    ensures |Shown(s)| == |s| ==> Plain(s)
  {
    if s != "" {
      ShownPlain(s[1..]);
      assert s == [s[0]] + s[1..];
      assert Plain(s) <==> s[0] != '\\' && !IsControl(s[0]) && Plain(s[1..]);
      if Plain(s) {
        assert Shown(s) == [s[0]] + Shown(s[1..]);
      }
    }
  }

  /** The `''` to `'` replacement, left to right without overlaps. */
  function Undoubled(s: string): string {
    if |s| < 2 then s
    else if s[0] == '\'' && s[1] == '\'' then "'" + Undoubled(s[2..])
    else [s[0]] + Undoubled(s[1..])
  }

  lemma {:induction false} UndoubledPlainPrefix(p: string, rest: string)
    requires '\'' !in p
    ensures Undoubled(p + rest) == p + Undoubled(rest)
    decreases |p|
  {
    if p == "" {
      assert p + rest == rest;
    } else {
      var s := p + rest;
      assert s[0] == p[0] != '\'' && s[1..] == p[1..] + rest;
      UndoubledPlainPrefix(p[1..], rest);
      assert [p[0]] + (p[1..] + Undoubled(rest)) == p + Undoubled(rest);
      if |s| < 2 {
        assert p[1..] == "" && rest == "";
      }
    }
  }

  /** Dequoting undoes the quote doubling of escaping. */
  lemma {:induction false} UndoubledEscaped(s: string)
    ensures Undoubled(Escaped(s)) == Shown(s)
  {
    if s != "" {
      UndoubledEscaped(s[1..]);
      if s[0] == '\'' {
        assert Escaped(s)[2..] == Escaped(s[1..]);
      } else {
        UndoubledPlainPrefix(ShowChar(s[0]), Escaped(s[1..]));
      }
    }
  }

  // ---- escape_value and dequote_value ----

  function StripLeft(s: string): string {
    if s != "" && IsSpace(s[0]) then StripLeft(s[1..]) else s
  }

  function StripRight(s: string): string {
    if s != "" && IsSpace(s[|s| - 1]) then StripRight(s[..|s| - 1]) else s
  }

  function Strip(s: string): string {
    StripRight(StripLeft(s))
  }

  lemma {:induction false} StripShort(s: string)
    ensures |StripLeft(s)| <= |s| && |StripRight(s)| <= |s|
    decreases |s|
  {
    if s != "" {
      StripShort(s[1..]);
      StripShort(s[..|s| - 1]);
    }
  }

  lemma {:induction false} StripLeftPad(pad: string, s: string)
    requires IsPad(pad)
    ensures StripLeft(pad + s) == StripLeft(s)
  {
    if pad == "" {
      assert pad + s == s;
    } else {
      SpaceIs(pad[0]);
      assert (pad + s)[0] == pad[0] && (pad + s)[1..] == pad[1..] + s;
      StripLeftPad(pad[1..], s);
    }
  }

  lemma {:induction false} StripRightPad(s: string, pad: string)
    requires IsPad(pad)
    ensures StripRight(s + pad) == StripRight(s)
    decreases |pad|
  {
    if pad == "" {
      assert s + pad == s;
    } else {
      var n := |pad| - 1;
      SpaceIs(pad[n]);
      assert (s + pad)[|s + pad| - 1] == pad[n] && (s + pad)[..|s + pad| - 1] == s + pad[..n];
      StripRightPad(s, pad[..n]);
    }
  }

  /** White space around a text is taken off, and nothing else. */
  lemma StripExact(before: string, s: string, after: string)
    requires IsPad(before) && IsPad(after)
    requires s != "" && !IsPad([s[0]]) && !IsPad([s[|s| - 1]])
    ensures Strip(before + s + after) == s
  {
    SpaceIs(s[0]);
    SpaceIs(s[|s| - 1]);
    assert before + s + after == before + (s + after);
    StripLeftPad(before, s + after);
    assert (s + after)[0] == s[0] && [s[0]][0] == s[0] && [s[|s| - 1]][0] == s[|s| - 1];
    StripRightPad(s, after);
  }

  function DequoteValue(cqlword: string): string {
    var w := Strip(cqlword);
    if w == "" then w
    else if w[0] == '\'' && w[|w| - 1] == '\'' then Undoubled(if |w| >= 2 then w[1..|w| - 1] else "")
    else w
  }

  function Doubled(s: string): string {
    if s == "" then "" else (if s[0] == '\'' then "''" else [s[0]]) + Doubled(s[1..])
  }

  function EscapeValue(s: string): string {
    "'" + Doubled(s) + "'"
  }

  lemma {:induction false} UndoubledDoubled(s: string)
    ensures Undoubled(Doubled(s)) == s
  {
    if s != "" {
      UndoubledDoubled(s[1..]);
      if s[0] == '\'' {
        assert Doubled(s)[2..] == Doubled(s[1..]);
      } else {
        UndoubledPlainPrefix([s[0]], Doubled(s[1..]));
      }
      assert [s[0]] + s[1..] == s;
    }
  }

  ghost predicate Trimmed(s: string) {
    s != "" && !IsSpace(s[0]) && !IsSpace(s[|s| - 1])
  }

  lemma StripTrimmed(s: string)
    requires Trimmed(s)
    ensures Strip(s) == s && Strip(" " + s) == s
  {
    assert (" " + s)[1..] == s;
  }

  lemma DequoteQuoted(inner: string)
    ensures var w := "'" + inner + "'"; DequoteValue(w) == Undoubled(inner) == DequoteValue(" " + w)
  {
    var w := "'" + inner + "'";
    StripTrimmed(w);
    assert w[1..|w| - 1] == inner;
  }

  /** A single quote by itself reads as nothing; a quote on one side only is kept. */
  lemma DequoteOdd(s: string)
    requires Trimmed(s) && (s[0] == '\'') != (s[|s| - 1] == '\'')
    ensures DequoteValue("'") == "" && DequoteValue(s) == s
  {
    StripTrimmed("'");
    StripTrimmed(s);
  }

  /** Quoting any text, whatever quotes it contains, is undone by dequoting. */
  lemma QuotingRoundTrip(s: string)
    ensures DequoteValue(EscapeValue(s)) == s
  {
    DequoteQuoted(Doubled(s));
    UndoubledDoubled(s);
  }

  /** A word that is neither padded nor quoted is its own value. */
  lemma DequoteBare(s: string)
    requires Trimmed(s) && s[0] != '\''
    ensures DequoteValue(s) == s == DequoteValue(" " + s)
  {
    StripTrimmed(s);
  }

  // ---- decimal numbers ----

  const DIGITS := "0123456789"

  predicate IsDigit(c: char) {
    '0' <= c <= '9'
  }

  function NatText(n: nat): (s: string)
    ensures |s| > 0 && forall i :: 0 <= i < |s| ==> IsDigit(s[i])
  {
    (if n < 10 then "" else NatText(n / 10)) + [DIGITS[n % 10]]
  }

  function IntText(n: int): (s: string)
    ensures |s| > 0
  {
    if n < 0 then "-" + NatText(-n) else NatText(n)
  }

  function ParseNat(s: string): Option<nat> {
    if s == "" then None
    else if !IsDigit(s[|s| - 1]) then None
    else
      var d := (s[|s| - 1] - '0') as int;
      if |s| == 1 then Some(d)
      else match ParseNat(s[..|s| - 1])
        case None => None
        case Some(n) => Some(10 * n + d)
  }

  function Signed(negative: bool, n: Option<nat>): Option<int> {
    if n.None? then None else Some(if negative then 0 - n.value else n.value)
  }

  /** Reading an integer from a stripped text. */
  function ParseInt(s: string): Option<int> {
    if s != "" && (s[0] == '+' || s[0] == '-') then Signed(s[0] == '-', ParseNat(s[1..]))
        else Signed(false, ParseNat(s))
  }

  lemma {:induction false} NatRoundTrip(n: nat)
    ensures ParseNat(NatText(n)) == Some(n)
  {
    var s := NatText(n);
    assert (s[|s| - 1] - '0') as int == n % 10;
    if n >= 10 {
      NatRoundTrip(n / 10);
      assert s[..|s| - 1] == NatText(n / 10);
    }
  }

  lemma SignedRoundTrip(n: int, digits: string)
    requires digits != "" && IsDigit(digits[0]) && ParseNat(digits) == Some(if n < 0 then -n else n)
    ensures ParseInt(if n < 0 then "-" + digits else digits) == Some(n)
  {
    assert ("-" + digits)[1..] == digits;
  }

  lemma IntRoundTrip(n: int)
    ensures ParseInt(IntText(n)) == Some(n)
  {
    var m: nat := if n < 0 then -n else n;
    NatRoundTrip(m);
    SignedRoundTrip(n, NatText(m));
  }

  /** Printed numbers have no sign unless they are negative, and no zeros in front. */
  lemma {:induction false} NumberLooks(n: nat)
    ensures NatText(n)[0] == '0' <==> n == 0
    ensures IntText(n) == NatText(n) && (n > 0 ==> IntText(0 - n) == "-" + NatText(n))
  {
    if n >= 10 {
      NumberLooks(n / 10);
      assert NatText(n)[0] == NatText(n / 10)[0];
    }
  }

  /** A plus sign may stand in front of a number that is read. */
  lemma PlusSign(n: nat)
    ensures ParseInt("+" + NatText(n)) == Some(n)
  {
    NatRoundTrip(n);
    assert ("+" + NatText(n))[1..] == NatText(n);
  }

  // ---- split ----

  predicate IsOpen(c: char) {
    c == '{' || c == '[' || c == '('
  }

  predicate IsClose(c: char) {
    c == '}' || c == ']' || c == ')'
  }

  predicate Matching(c: char, d: char) {
    (c == '{' && d == '}') || (c == '[' && d == ']') || (c == '(' && d == ')')
  }

  /** Where the scan stands: bracket depth and whether inside single quotes. */
  datatype Scan = Scan(level: int, quote: bool)

  function Next(c: char, st: Scan): Scan {
    if c == '\'' then st.(quote := !st.quote)
    else if st.quote then st
    else if IsOpen(c) then st.(level := st.level + 1)
    else if IsClose(c) then st.(level := st.level - 1)
    else st
  }

  predicate CutsAt(c: char, sep: char, st: Scan) {
    c != '\'' && !st.quote && !IsOpen(c) && !IsClose(c) && c == sep && st.level == 1
  }

  /** The pieces of `s`, the first of which starts with `cur`. */
  function Cut(s: string, sep: char, st: Scan, cur: string): (pieces: seq<string>)
    ensures pieces != []
    decreases |s|
  {
    if s == "" then [cur]
    else if CutsAt(s[0], sep, st) then [cur] + Cut(s[1..], sep, Next(s[0], st), "")
    else Cut(s[1..], sep, Next(s[0], st), cur + [s[0]])
  }

  function DropEmptyLast(pieces: seq<string>): seq<string> {
    if pieces != [] && pieces[|pieces| - 1] == "" then pieces[..|pieces| - 1] else pieces
  }

  /** The pieces between the outer brackets, or None for the ParseError. */
  function Split(val: string, sep: char): Option<seq<string>> {
    if |val| < 2 || !Matching(val[0], val[|val| - 1]) then None
    else Some(DropEmptyLast(Cut(val[1..|val| - 1], sep, Scan(1, false), "")))
  }

  function RunScan(s: string, st: Scan): Scan
    decreases |s|
  {
    if s == "" then st else RunScan(s[1..], Next(s[0], st))
  }

  /** No cut falls inside `s` when it is scanned from `st`. */
  predicate Uncut(s: string, sep: char, st: Scan)
    decreases |s|
  {
    s == "" || (!CutsAt(s[0], sep, st) && Uncut(s[1..], sep, Next(s[0], st)))
  }

  lemma {:induction false} ScanJoin(a: string, b: string, sep: char, st: Scan)
    ensures RunScan(a + b, st) == RunScan(b, RunScan(a, st))
    ensures Uncut(a + b, sep, st) <==> Uncut(a, sep, st) && Uncut(b, sep, RunScan(a, st))
    decreases |a|
  {
    if a == "" {
      assert a + b == b;
    } else {
      assert (a + b)[1..] == a[1..] + b;
      ScanJoin(a[1..], b, sep, Next(a[0], st));
    }
  }

  lemma {:induction false} CutPast(a: string, b: string, sep: char, st: Scan, cur: string)
    requires Uncut(a, sep, st)
    ensures Cut(a + b, sep, st, cur) == Cut(b, sep, RunScan(a, st), cur + a)
    decreases |a|
  {
    if a == "" {
      assert a + b == b && cur + a == cur;
    } else {
      assert (a + b)[1..] == a[1..] + b;
      CutPast(a[1..], b, sep, Next(a[0], st), cur + [a[0]]);
      assert cur + [a[0]] + a[1..] == cur + a;
    }
  }

  /** `s` is transparent to the scan at depth `level`: it is not cut and leaves depth and quotes as they were. */
  ghost predicate Neutral(s: string, sep: char, level: int) {
    RunScan(s, Scan(level, false)) == Scan(level, false) && Uncut(s, sep, Scan(level, false))
  }

  lemma NeutralJoin(a: string, b: string, sep: char, level: int)
    requires Neutral(a, sep, level) && Neutral(b, sep, level)
    ensures Neutral(a + b, sep, level)
  {
    ScanJoin(a, b, sep, Scan(level, false));
  }

  predicate IsOrdinary(c: char) {
    c != '\'' && !IsOpen(c) && !IsClose(c)
  }

  lemma {:induction false} NeutralOrdinary(s: string, sep: char, level: int)
    requires forall i :: 0 <= i < |s| ==> IsOrdinary(s[i]) && (s[i] != sep || level != 1)
    ensures Neutral(s, sep, level)
  {
    if s != "" {
      NeutralOrdinary(s[1..], sep, level);
    }
  }

  lemma {:induction false} ScanQuoteless(s: string, sep: char, level: int)
    requires '\'' !in s
    ensures RunScan(s, Scan(level, true)) == Scan(level, true) && Uncut(s, sep, Scan(level, true))
  {
    if s != "" {
      ScanQuoteless(s[1..], sep, level);
    }
  }

  /** Inside quotes every escaped text passes, since its own quotes come in pairs. */
  lemma {:induction false} ScanEscaped(s: string, sep: char, level: int)
    ensures RunScan(Escaped(s), Scan(level, true)) == Scan(level, true) && Uncut(Escaped(s), sep, Scan(level, true))
  {
    if s != "" {
      ScanEscaped(s[1..], sep, level);
      var head := if s[0] == '\'' then "''" else ShowChar(s[0]);
      if s[0] == '\'' {
        assert head[1..] == "'" && head[1..][1..] == "";
        assert RunScan("'", Scan(level, false)) == Scan(level, true);
      } else {
        ScanQuoteless(head, sep, level);
      }
      ScanJoin(head, Escaped(s[1..]), sep, Scan(level, true));
    }
  }

  lemma NeutralQuoted(s: string, sep: char, level: int)
    requires sep != '\''
    ensures Neutral("'" + Escaped(s) + "'", sep, level)
  {
    ScanEscaped(s, sep, level);
    ScanJoin("'", Escaped(s), sep, Scan(level, false));
    ScanJoin("'" + Escaped(s), "'", sep, Scan(level, false));
    assert RunScan("'", Scan(level, false)) == Scan(level, true);
    assert RunScan("'", Scan(level, true)) == Scan(level, false);
  }

  lemma NeutralNumber(n: int, sep: char, level: int)
    requires sep == ',' || sep == ':'
    ensures Neutral(IntText(n), sep, level) && Trimmed(IntText(n)) && IntText(n)[0] != '\''
  {
    NeutralOrdinary(IntText(n), sep, level);
  }

  lemma NeutralBracketed(open: char, inner: string, close: char, sep: char, level: int)
    requires IsOpen(open) && IsClose(close) && (sep == ',' || sep == ':')
    requires Neutral(inner, sep, level + 1)
    ensures Neutral([open] + inner + [close], sep, level)
  {
    ScanJoin([open], inner, sep, Scan(level, false));
    ScanJoin([open] + inner, [close], sep, Scan(level, false));
    assert [open][1..] == "" && [close][1..] == "";
    assert RunScan([open], Scan(level, false)) == Scan(level + 1, false);
    assert RunScan([close], Scan(level + 1, false)) == Scan(level, false);
  }

  // ---- joining and cutting ----

  /** The parts with a comma and a space between each two. */
  function Join(parts: seq<string>): string {
    if |parts| == 0 then "" else if |parts| == 1 then parts[0] else parts[0] + ", " + Join(parts[1..])
  }

  /** Joined parts as they come back: all but the first with a leading space. */
  function Spaced(parts: seq<string>, first: bool): (r: seq<string>)
    ensures |r| == |parts|
    ensures forall i :: 0 <= i < |parts| ==> r[i] == if first && i == 0 then parts[i] else " " + parts[i]
  {
    seq(|parts|, i requires 0 <= i < |parts| => if first && i == 0 then parts[i] else " " + parts[i])
  }

  ghost predicate AllNeutral(parts: seq<string>, sep: char, level: int) {
    forall i :: 0 <= i < |parts| ==> Neutral(parts[i], sep, level)
  }

  lemma {:induction false} NeutralJoined(parts: seq<string>, sep: char, level: int)
    requires AllNeutral(parts, sep, level) && (sep == ':' || (sep == ',' && level != 1))
    ensures Neutral(Join(parts), sep, level)
  {
    if |parts| > 1 {
      NeutralJoined(parts[1..], sep, level);
      NeutralOrdinary(", ", sep, level);
      NeutralJoin(parts[0], ", ", sep, level);
      NeutralJoin(parts[0] + ", ", Join(parts[1..]), sep, level);
    }
  }

  /** One neutral part in front of a separator. */
  lemma CutOne(part: string, rest: string, sep: char, cur: string)
    requires Neutral(part, sep, 1) && (sep == ',' || sep == ':')
    ensures Cut(part + ([sep] + (" " + rest)), sep, Scan(1, false), cur) ==
        [cur + part] + Cut(rest, sep, Scan(1, false), " ")
  {
    var st := Scan(1, false);
    var s1, s2 := [sep] + (" " + rest), " " + rest;
    CutPast(part, s1, sep, st, cur);
    assert s1[1..] == s2 && s2[1..] == rest;
    assert Cut(s1, sep, st, cur + part) == [cur + part] + Cut(s2, sep, st, "");
    assert "" + [' '] == " ";
  }

  lemma CutLast(part: string, sep: char, cur: string)
    requires Neutral(part, sep, 1)
    ensures Cut(part, sep, Scan(1, false), cur) == [cur + part]
  {
    CutPast(part, "", sep, Scan(1, false), cur);
    assert part + "" == part;
  }

  lemma SpacedCons(parts: seq<string>, first: bool)
    requires parts != []
    ensures Spaced(parts, first) == [(if first then "" else " ") + parts[0]] + Spaced(parts[1..], false)
  {
    var lead := if first then "" else " ";
    assert "" + parts[0] == parts[0];
    var all := [lead + parts[0]] + Spaced(parts[1..], false);
    assert forall i :: 1 <= i < |parts| ==> all[i] == " " + parts[1..][i - 1];
  }

  /** Cutting joined neutral parts gives the parts back. */
  lemma {:induction false} CutJoined(parts: seq<string>, first: bool)
    requires AllNeutral(parts, ',', 1) && parts != []
    ensures Cut(Join(parts), ',', Scan(1, false), if first then "" else " ") == Spaced(parts, first)
    decreases |parts|
  {
    var cur := if first then "" else " ";
    SpacedCons(parts, first);
    assert Neutral(parts[0], ',', 1);
    if |parts| == 1 {
      CutLast(parts[0], ',', cur);
    } else {
      var rest := Join(parts[1..]);
      JoinHead(parts);
      CutOne(parts[0], rest, ',', cur);
      assert AllNeutral(parts[1..], ',', 1);
      CutJoined(parts[1..], false);
    }
  }

  lemma JoinHead(parts: seq<string>)
    requires |parts| > 1
    ensures Join(parts) == parts[0] + ([','] + (" " + Join(parts[1..])))
  {
  }

  lemma Inside(open: char, inner: string, close: char)
    ensures var val := [open] + inner + [close];
      |val| == |inner| + 2 && val[0] == open && val[|val| - 1] == close && val[1..|val| - 1] == inner
  {
  }

  /** Splitting a printed collection gives its parts back, whatever brackets, quotes and separators
      they contain. */
  lemma SplitJoined(open: char, parts: seq<string>, close: char)
    requires Matching(open, close) && AllNeutral(parts, ',', 1)
    requires forall i :: 0 <= i < |parts| ==> parts[i] != ""
    ensures Split([open] + Join(parts) + [close], ',') == Some(Spaced(parts, true))
  {
    Inside(open, Join(parts), close);
    if parts != [] {
      CutJoined(parts, true);
      var pieces := Spaced(parts, true);
      assert pieces[|pieces| - 1] != "";
    }
  }

  /** Splitting `key: value` between braces at the colon. */
  lemma SplitPair(key: string, value: string)
    requires Neutral(key, ':', 1) && Neutral(value, ':', 1)
    ensures Split("{" + (key + ": " + value) + "}", ':') == Some([key, " " + value])
  {
    var inner := key + ": " + value;
    Inside('{', inner, '}');
    assert inner == key + ([':'] + (" " + value));
    CutOne(key, value, ':', "");
    CutLast(value, ':', " ");
    assert "" + key == key;
    assert Cut(inner, ':', Scan(1, false), "") == [key, " " + value];
  }

  // ---- the scanning loop ----

  /** One character of the scan. */
  lemma CutStep(val: string, i: nat, last: nat, n: nat, sep: char, st: Scan)
    requires last <= i < n <= |val|
    ensures Cut(val[i..n], sep, st, val[last..i]) ==
            if CutsAt(val[i], sep, st) then [val[last..i]]
                + Cut(val[i + 1..n], sep, Next(val[i], st), val[i + 1..i + 1])
            else Cut(val[i + 1..n], sep, Next(val[i], st), val[last..i + 1])
  {
    assert val[i..n][0] == val[i] && val[i..n][1..] == val[i + 1..n];
    assert val[last..i] + [val[i]] == val[last..i + 1];
    assert val[i + 1..i + 1] == "";
  }

  /** What is found so far and what the rest of the scan will find make up the pieces. */
  ghost predicate Scanned(val: string, sep: char, i: nat, last: nat, st: Scan, ret: seq<string>)
    requires 1 <= last <= i <= |val| - 1
  {
    var n := |val| - 1;
    ret + Cut(val[i..n], sep, st, val[last..i]) == Cut(val[1..n], sep, Scan(1, false), "")
  }

  lemma ScannedStep(val: string, sep: char, i: nat, last: nat, st: Scan, ret: seq<string>)
    requires 1 <= last <= i < |val| - 1 && Scanned(val, sep, i, last, st, ret)
    ensures if CutsAt(val[i], sep, st) then Scanned(val, sep, i + 1, i + 1, Next(val[i], st), ret + [val[last..i]])
            else Scanned(val, sep, i + 1, last, Next(val[i], st), ret)
  {
    var n := |val| - 1;
    CutStep(val, i, last, n, sep, st);
    if CutsAt(val[i], sep, st) {
      var more := Cut(val[i + 1..n], sep, Next(val[i], st), val[i + 1..i + 1]);
      assert ret + ([val[last..i]] + more) == ret + [val[last..i]] + more;
    }
  }

  method SplitScan(val: string, sep: char) returns (r: Option<seq<string>>)
    requires sep == ',' || sep == ':'
    ensures r == Split(val, sep)
  {
    if |val| < 2 || !Matching(val[0], val[|val| - 1]) {
      return None;
    }
    var n := |val| - 1;
    var ret: seq<string> := [];
    var last, level, quote := 1, 0, false;
    for i := 0 to |val|
      invariant i == 0 ==> ret == [] && level == 0 && !quote && last == 1
      invariant 1 <= last <= n && (i > 0 ==> last <= i)
      invariant 1 <= i <= n ==> Scanned(val, sep, i, last, Scan(level, quote), ret)
      invariant i == |val| ==> ret + [val[last..n]] == Cut(val[1..n], sep, Scan(1, false), "")
    {
      var c := val[i];
      if 1 <= i < n {
        ScannedStep(val, sep, i, last, Scan(level, quote), ret);
      } else if i == n {
        assert val[i..n] == "";
      }
      if c == '\'' {
        quote := !quote;
      } else if !quote {
        if IsOpen(c) {
          level := level + 1;
        } else if IsClose(c) {
          level := level - 1;
        } else if c == sep && level == 1 {
          ret := ret + [val[last..i]];
          last := i + 1;
        }
      }
      if i == 0 {
        assert val[1..1] == "";
      }
    }
    if last < n {
      ret := ret + [val[last..n]];
    }
    return Some(ret);
  }
}
