/** Durations as text: `-1y2mo3d4h5m6s7ms8us9ns`. */
module Durations {
  import opened Common
  import opened CqlText

  datatype Unit = Years | Months | Days | Hours | Minutes | Seconds | Millis | Micros | Nanos

  function UnitText(u: Unit): (s: string)
    ensures s != "" && forall i :: 0 <= i < |s| ==> !IsDigit(s[i]) && s[i] != '-'
  {
    match u
    case Years => "y" case Months => "mo" case Days => "d" case Hours => "h" case Minutes => "m"
    case Seconds => "s" case Millis => "ms" case Micros => "us" case Nanos => "ns"
  }

  const NANOS_PER_MICRO := 1000
  const NANOS_PER_MILLI := 1000 * NANOS_PER_MICRO
  const NANOS_PER_SECOND := 1000 * NANOS_PER_MILLI
  const NANOS_PER_MINUTE := 60 * NANOS_PER_SECOND
  const NANOS_PER_HOUR := 60 * NANOS_PER_MINUTE
  const MONTHS_PER_YEAR := 12

  /** A unit in terms of the smallest unit of its group. */
  function Factor(u: Unit): (f: nat)
    ensures f > 0
  {
    match u
    case Years => MONTHS_PER_YEAR case Months => 1 case Days => 1 case Hours => NANOS_PER_HOUR
        case Minutes => NANOS_PER_MINUTE
    case Seconds => NANOS_PER_SECOND case Millis => NANOS_PER_MILLI case Micros => NANOS_PER_MICRO case Nanos => 1
  }

  datatype Group = MonthGroup | DayGroup | NanoGroup

  function GroupOf(u: Unit): Group {
    match u case Years => MonthGroup case Months => MonthGroup case Days => DayGroup case _ => NanoGroup
  }

  function UnitsOf(g: Group): seq<Unit> {
    match g
    case MonthGroup => [Years, Months]
    case DayGroup => [Days]
    case NanoGroup => [Hours, Minutes, Seconds, Millis, Micros, Nanos]
  }

  datatype Part = Part(count: nat, unit: Unit)

  // ---- printing ----

  /** The successive calls of append for the units of a group. */
  function Breakdown(dividend: nat, units: seq<Unit>): seq<Part>
    decreases |units|
  {
    if units == [] then []
    else
      var f := Factor(units[0]);
      if dividend == 0 || dividend < f then Breakdown(dividend, units[1..])
      else [Part(dividend / f, units[0])] + Breakdown(dividend % f, units[1..])
  }

  function Abs(n: int): nat {
    if n < 0 then -n else n
  }

  function PartText(p: Part): string {
    NatText(p.count) + UnitText(p.unit)
  }

  function PartsText(parts: seq<Part>): string {
    if parts == [] then "" else PartText(parts[0]) + PartsText(parts[1..])
  }

  function PartsOf(months: int, days: int, nanos: int): seq<Part> {
    Breakdown(Abs(months), UnitsOf(MonthGroup)) + Breakdown(Abs(days), UnitsOf(DayGroup))
        + Breakdown(Abs(nanos), UnitsOf(NanoGroup))
  }

  predicate AnyNegative(months: int, days: int, nanos: int) {
    months < 0 || days < 0 || nanos < 0
  }

  function DurationText(months: int, days: int, nanos: int): string {
    (if AnyNegative(months, days, nanos) then "-" else "") + PartsText(PartsOf(months, days, nanos))
  }

  // ---- nothing is lost in the parts ----

  function Sum(parts: seq<Part>, g: Group): nat {
    if parts == [] then 0
    else (if GroupOf(parts[0].unit) == g then parts[0].count * Factor(parts[0].unit) else 0) + Sum(parts[1..], g)
  }

  lemma {:induction false} SumJoin(a: seq<Part>, b: seq<Part>, g: Group)
    ensures Sum(a + b, g) == Sum(a, g) + Sum(b, g)
  {
    if a == [] {
      assert a + b == b;
    } else {
      assert (a + b)[1..] == a[1..] + b;
      SumJoin(a[1..], b, g);
    }
  }

  /** The counts of a split add up to what was split, and count for no other group. */
  lemma {:induction false} BreakdownSum(n: nat, units: seq<Unit>, g: Group, h: Group)
    requires units != [] && Factor(units[|units| - 1]) == 1
    requires forall i :: 0 <= i < |units| ==> GroupOf(units[i]) == g
    ensures Sum(Breakdown(n, units), h) == if h == g then n else 0
    decreases |units|
  {
    var f := Factor(units[0]);
    if |units| == 1 {
      assert Breakdown(n % 1, units[1..]) == [];
      assert n > 0 ==> Breakdown(n, units) == [Part(n, units[0])] + [];
    } else if n == 0 || n < f {
      BreakdownSum(n, units[1..], g, h);
    } else {
      BreakdownSum(n % f, units[1..], g, h);
      var parts := Breakdown(n, units);
      assert parts[0] == Part(n / f, units[0]) && parts[1..] == Breakdown(n % f, units[1..]);
      Divided(n, f);
    }
  }

  lemma Divided(n: nat, f: nat)
    requires f > 0
    ensures n / f * f + n % f == n
  {
  }

  lemma PartsSum(months: int, days: int, nanos: int, g: Group)
    ensures Sum(PartsOf(months, days, nanos), g) ==
            match g case MonthGroup => Abs(months) case DayGroup => Abs(days) case NanoGroup => Abs(nanos)
  {
    var a, b, c := Breakdown(Abs(months), UnitsOf(MonthGroup)), Breakdown(Abs(days), UnitsOf(DayGroup)),
        Breakdown(Abs(nanos), UnitsOf(NanoGroup));
    BreakdownSum(Abs(months), UnitsOf(MonthGroup), MonthGroup, g);
    BreakdownSum(Abs(days), UnitsOf(DayGroup), DayGroup, g);
    BreakdownSum(Abs(nanos), UnitsOf(NanoGroup), NanoGroup, g);
    SumJoin(a + b, c, g);
    SumJoin(a, b, g);
  }

  /** How many of a unit make one of the next larger unit of its group; 0 for the largest. */
  function Carry(u: Unit): nat {
    match u
    case Months => 12 case Minutes => 60 case Seconds => 60 case Millis => 1000 case Micros => 1000 case Nanos => 1000
    case _ => 0
  }

  /** No part is zero, and every unit but the largest of its group stays below its carry limit. */
  ghost predicate Carried(parts: seq<Part>) {
    forall i :: 0 <= i < |parts| ==>
        parts[i].count > 0 && (Carry(parts[i].unit) > 0 ==> parts[i].count < Carry(parts[i].unit))
  }

  lemma {:induction false} BreakdownCarried(n: nat, units: seq<Unit>)
    requires forall i :: 1 <= i < |units| ==> Factor(units[i - 1]) == Carry(units[i]) * Factor(units[i])
    requires units != [] ==> Carry(units[0]) == 0 || n < Carry(units[0]) * Factor(units[0])
    ensures Carried(Breakdown(n, units))
    decreases |units|
  {
    if units != [] {
      var f := Factor(units[0]);
      if n == 0 || n < f {
        BreakdownCarried(n, units[1..]);
      } else {
        BreakdownCarried(n % f, units[1..]);
        Divided(n, f);
        Quotient(n, f, Carry(units[0]));
      }
    }
  }

  lemma Quotient(n: nat, f: nat, c: nat)
    requires f > 0 && n >= f
    ensures n / f > 0 && (n < c * f ==> n / f < c)
  {
    var q := n / f;
    assert n == q * f + n % f;
    assert q >= c ==> q * f >= c * f;
    assert q <= 0 ==> q * f <= 0;
  }

  lemma CarryLimits(months: int, days: int, nanos: int)
    ensures Carried(PartsOf(months, days, nanos))
  {
    BreakdownCarried(Abs(months), UnitsOf(MonthGroup));
    BreakdownCarried(Abs(days), UnitsOf(DayGroup));
    BreakdownCarried(Abs(nanos), UnitsOf(NanoGroup));
  }

  // ---- what the text looks like ----

  /** Counts with their unit texts, one after the other; a count of 0 is not shown. */
  function CountsText(counts: seq<(nat, string)>): string {
    if counts == [] then ""
    else (if counts[0].0 == 0 then "" else NatText(counts[0].0) + counts[0].1) + CountsText(counts[1..])
  }

  function NonZero(parts: seq<Part>): seq<Part> {
    if parts == [] then [] else (if parts[0].count == 0 then [] else [parts[0]]) + NonZero(parts[1..])
  }

  lemma BreakdownStep(n: nat, units: seq<Unit>, q: nat, r: nat)
    requires units != [] && n / Factor(units[0]) == q && n % Factor(units[0]) == r
    requires q == 0 ==> n == r < Factor(units[0])
    requires q > 0 ==> n >= Factor(units[0])
    ensures Breakdown(n, units) == (if q == 0 then [] else [Part(q, units[0])]) + Breakdown(r, units[1..])
  {
  }

  /** A dividend of `q` units and less than one more. */
  lemma Counted(n: nat, units: seq<Unit>, q: nat, f: nat, r: nat)
    requires units != [] && f == Factor(units[0]) && r < f && n == q * f + r
    ensures Breakdown(n, units) == (if q == 0 then [] else [Part(q, units[0])]) + Breakdown(r, units[1..])
  {
    DividesAs(n, q, f, r);
    Multiples(0, q, f);
    BreakdownStep(n, units, q, r);
  }

  /** The value of some counts in terms of their units. */
  function ValueOf(parts: seq<Part>): nat {
    if parts == [] then 0 else parts[0].count * Factor(parts[0].unit) + ValueOf(parts[1..])
  }

  /** Every unit is worth more than all the smaller ones together. */
  ghost predicate Ordered(parts: seq<Part>) {
    forall i :: 0 <= i < |parts| ==> ValueOf(parts[i + 1..]) < Factor(parts[i].unit)
  }

  function Units(parts: seq<Part>): seq<Unit> {
    seq(|parts|, i requires 0 <= i < |parts| => parts[i].unit)
  }

  lemma {:induction false} CountsBrokenDown(parts: seq<Part>)
    requires Ordered(parts)
    ensures Breakdown(ValueOf(parts), Units(parts)) == NonZero(parts)
  {
    if parts != [] {
      assert parts[0 + 1..] == parts[1..];
      forall i | 0 <= i < |parts[1..]|
        ensures ValueOf(parts[1..][i + 1..]) < Factor(parts[1..][i].unit)
      {
        assert parts[1..][i + 1..] == parts[i + 2..];
        assert ValueOf(parts[(i + 1) + 1..]) < Factor(parts[i + 1].unit);
      }
      CountsBrokenDown(parts[1..]);
      assert Units(parts)[1..] == Units(parts[1..]);
      Counted(ValueOf(parts), Units(parts), parts[0].count, Factor(parts[0].unit), ValueOf(parts[1..]));
    }
  }

  lemma {:induction false} NonZeroJoin(a: seq<Part>, b: seq<Part>)
    ensures NonZero(a + b) == NonZero(a) + NonZero(b)
  {
    if a == [] {
      assert a + b == b;
    } else {
      NonZeroJoin(a[1..], b);
      assert (a + b)[0] == a[0] && (a + b)[1..] == a[1..] + b;
      Regroup(if a[0].count == 0 then [] else [a[0]], NonZero(a[1..]), NonZero(b));
    }
  }

  function Labelled(parts: seq<Part>): seq<(nat, string)> {
    seq(|parts|, i requires 0 <= i < |parts| => (parts[i].count, UnitText(parts[i].unit)))
  }

  lemma {:induction false} NonZeroText(parts: seq<Part>)
    ensures PartsText(NonZero(parts)) == CountsText(Labelled(parts))
  {
    if parts != [] {
      NonZeroText(parts[1..]);
      assert Labelled(parts)[1..] == Labelled(parts[1..]);
      var rest := NonZero(parts[1..]);
      if parts[0].count == 0 {
        assert [] + rest == rest && "" + PartsText(rest) == PartsText(rest);
      } else {
        assert ([parts[0]] + rest)[1..] == rest;
      }
    }
  }

  function MonthCounts(y: nat, mo: nat): (parts: seq<Part>)
    ensures |parts| == 2
  {
    [Part(y, Years), Part(mo, Months)]
  }

  lemma MonthsCounted(y: nat, mo: nat)
    requires mo < 12
    ensures Breakdown(12 * y + mo, UnitsOf(MonthGroup)) == NonZero(MonthCounts(y, mo))
  {
    var parts := MonthCounts(y, mo);
    assert parts[2..] == [] && ValueOf(parts[2..]) == 0;
    assert parts[1..][1..] == parts[2..] && ValueOf(parts[1..]) == mo;
    assert ValueOf(parts) == 12 * y + mo by { assert y * 12 == 12 * y; }
    CountsBrokenDown(parts);
    assert Units(parts) == UnitsOf(MonthGroup);
  }

  lemma DaysCounted(d: nat)
    ensures Breakdown(d, UnitsOf(DayGroup)) == NonZero([Part(d, Days)])
  {
    var parts := [Part(d, Days)];
    assert parts[1..] == [] && ValueOf(parts) == d;
    CountsBrokenDown(parts);
  }

  function Nanoseconds(h: nat, m: nat, s: nat, ms: nat, us: nat, ns: nat): nat {
    h * 3_600_000_000_000 + (m * 60_000_000_000 + (s * 1_000_000_000 + (ms * 1_000_000 + (us * 1_000 + ns))))
  }

  function NanoCounts(h: nat, m: nat, s: nat, ms: nat, us: nat, ns: nat): (parts: seq<Part>)
    ensures |parts| == 6
  {
    [Part(h, Hours), Part(m, Minutes), Part(s, Seconds), Part(ms, Millis), Part(us, Micros), Part(ns, Nanos)]
  }

  lemma NanosOrdered(h: nat, m: nat, s: nat, ms: nat, us: nat, ns: nat)
    requires m < 60 && s < 60 && ms < 1000 && us < 1000 && ns < 1000
    ensures
      var parts := NanoCounts(h, m, s, ms, us, ns);
      Ordered(parts) && ValueOf(parts) == Nanoseconds(h, m, s, ms, us, ns)
  {
    var parts := NanoCounts(h, m, s, ms, us, ns);
    assert parts[6..] == [] && ValueOf(parts[6..]) == 0;
    assert parts[5..][1..] == parts[6..] && ValueOf(parts[5..]) == ns;
    assert parts[4..][1..] == parts[5..] && ValueOf(parts[4..]) == us * 1_000 + ns;
    assert parts[3..][1..] == parts[4..] && ValueOf(parts[3..]) == ms * 1_000_000 + ValueOf(parts[4..]);
    assert parts[2..][1..] == parts[3..] && ValueOf(parts[2..]) == s * 1_000_000_000 + ValueOf(parts[3..]);
    assert parts[1..][1..] == parts[2..] && ValueOf(parts[1..]) == m * 60_000_000_000 + ValueOf(parts[2..]);
    assert ValueOf(parts) == h * 3_600_000_000_000 + ValueOf(parts[1..]);
  }

  lemma NanosCounted(h: nat, m: nat, s: nat, ms: nat, us: nat, ns: nat)
    requires m < 60 && s < 60 && ms < 1000 && us < 1000 && ns < 1000
    ensures Breakdown(Nanoseconds(h, m, s, ms, us, ns), UnitsOf(NanoGroup)) == NonZero(NanoCounts(h, m, s, ms, us, ns))
  {
    var parts := NanoCounts(h, m, s, ms, us, ns);
    NanosOrdered(h, m, s, ms, us, ns);
    CountsBrokenDown(parts);
    assert Units(parts) == UnitsOf(NanoGroup);
  }

  lemma TextFrom(months: int, days: int, nanos: int, a: seq<Part>, b: seq<Part>, c: seq<Part>)
    requires Breakdown(Abs(months), UnitsOf(MonthGroup)) == NonZero(a)
    requires Breakdown(Abs(days), UnitsOf(DayGroup)) == NonZero(b)
    requires Breakdown(Abs(nanos), UnitsOf(NanoGroup)) == NonZero(c)
    ensures PartsText(PartsOf(months, days, nanos)) == CountsText(Labelled(a + b + c))
  {
    NonZeroJoin(a, b);
    NonZeroJoin(a + b, c);
    NonZeroText(a + b + c);
  }

  function WithUnits(y: nat, mo: nat, d: nat, h: nat, m: nat, s: nat, ms: nat, us: nat, ns: nat)
    : seq<(nat, string)>
  {
    [(y, "y"), (mo, "mo"), (d, "d"), (h, "h"), (m, "m"), (s, "s"), (ms, "ms"), (us, "us"), (ns, "ns")]
  }

  lemma AllLabelled(y: nat, mo: nat, d: nat, h: nat, m: nat, s: nat, ms: nat, us: nat, ns: nat)
    ensures
      Labelled(MonthCounts(y, mo) + [Part(d, Days)] + NanoCounts(h, m, s, ms, us, ns)) ==
      WithUnits(y, mo, d, h, m, s, ms, us, ns)
  {
  }

  lemma PartsShown(y: nat, mo: nat, d: nat, h: nat, m: nat, s: nat, ms: nat, us: nat, ns: nat)
    requires mo < 12 && m < 60 && s < 60 && ms < 1000 && us < 1000 && ns < 1000
    ensures PartsText(PartsOf(12 * y + mo, d, Nanoseconds(h, m, s, ms, us, ns))) ==
            CountsText(WithUnits(y, mo, d, h, m, s, ms, us, ns))
  {
    MonthsCounted(y, mo);
    DaysCounted(d);
    NanosCounted(h, m, s, ms, us, ns);
    var nanos := Nanoseconds(h, m, s, ms, us, ns);
    TextFrom(12 * y + mo, d, nanos, MonthCounts(y, mo), [Part(d, Days)], NanoCounts(h, m, s, ms, us, ns));
    AllLabelled(y, mo, d, h, m, s, ms, us, ns);
  }

  /** One sign stands for the whole duration. */
  lemma Signed(months: nat, days: nat, nanos: nat)
    ensures DurationText(months, days, nanos) == PartsText(PartsOf(months, days, nanos))
    ensures months > 0 || days > 0 || nanos > 0 ==>
              DurationText(0 - months, 0 - days, 0 - nanos) == "-" + PartsText(PartsOf(months, days, nanos))
  {
    var text := PartsText(PartsOf(months, days, nanos));
    assert "" + text == text;
    assert PartsOf(0 - months, 0 - days, 0 - nanos) == PartsOf(months, days, nanos);
  }

  /** A duration given by its counts, each below the next unit, prints them in this order, with the
      zeros left out and one sign in front. */
  lemma DurationShown(y: nat, mo: nat, d: nat, h: nat, m: nat, s: nat, ms: nat, us: nat, ns: nat)
    requires mo < 12 && m < 60 && s < 60 && ms < 1000 && us < 1000 && ns < 1000
    ensures
      var months, nanos := 12 * y + mo, Nanoseconds(h, m, s, ms, us, ns);
      var text := CountsText(WithUnits(y, mo, d, h, m, s, ms, us, ns));
      && DurationText(months, d, nanos) == text
      && (months > 0 || d > 0 || nanos > 0 ==> DurationText(0 - months, 0 - d, 0 - nanos) == "-" + text)
  {
    PartsShown(y, mo, d, h, m, s, ms, us, ns);
    Signed(12 * y + mo, d, Nanoseconds(h, m, s, ms, us, ns));
  }

  // ---- reading the text back ----

  /** The length of the leading run of digits (or of other characters). */
  function RunLength(s: string, digits: bool): (n: nat)
    ensures n <= |s|
  {
    if s != "" && IsDigit(s[0]) == digits then 1 + RunLength(s[1..], digits) else 0
  }

  lemma {:induction false} RunLengthIs(run: string, rest: string, digits: bool)
    requires forall i :: 0 <= i < |run| ==> IsDigit(run[i]) == digits
    requires rest == "" || IsDigit(rest[0]) != digits
    ensures RunLength(run + rest, digits) == |run|
  {
    if run == "" {
      assert run + rest == rest;
    } else {
      assert (run + rest)[1..] == run[1..] + rest;
      RunLengthIs(run[1..], rest, digits);
    }
  }

  function UnitNamed(s: string): Option<Unit> {
    if s == "y" then Some(Years) else if s == "mo" then Some(Months) else if s == "d" then Some(Days)
    else if s == "h" then Some(Hours) else if s == "m" then Some(Minutes) else if s == "s" then Some(Seconds)
    else if s == "ms" then Some(Millis) else if s == "us" then Some(Micros) else if s == "ns" then Some(Nanos) else None
  }

  /** A reader for such texts: a run of digits, a run of letters, and so on. */
  function ReadParts(s: string): Option<seq<Part>>
    decreases |s|
  {
    if s == "" then Some([])
    else
      var n := RunLength(s, true);
      var m := RunLength(s[n..], false);
      if n == 0 || m == 0 then None
      else
        Consed(ParseNat(s[..n]), UnitNamed(s[n..][..m]), ReadParts(s[n..][m..]))
  }

  function Consed(count: Option<nat>, unit: Option<Unit>, parts: Option<seq<Part>>): Option<seq<Part>> {
    if count.Some? && unit.Some? && parts.Some? then Some([Part(count.value, unit.value)] + parts.value) else None
  }

  lemma StartsWithDigit(parts: seq<Part>)
    ensures PartsText(parts) == "" || IsDigit(PartsText(parts)[0])
  {
  }

  lemma UnitRoundTrip(u: Unit)
    ensures UnitNamed(UnitText(u)) == Some(u)
  {
  }

  /** Reading undoes printing for every list of parts. */
  lemma {:induction false} PartsRoundTrip(parts: seq<Part>)
    ensures ReadParts(PartsText(parts)) == Some(parts)
  {
    if parts != [] {
      var p, rest := parts[0], PartsText(parts[1..]);
      PartsRoundTrip(parts[1..]);
      StartsWithDigit(parts[1..]);
      ReadHead(p, rest, parts[1..]);
      assert parts == [p] + parts[1..];
    }
  }

  lemma ReadHead(p: Part, rest: string, parts: seq<Part>)
    requires rest == "" || IsDigit(rest[0])
    requires ReadParts(rest) == Some(parts)
    ensures ReadParts(PartText(p) + rest) == Some([p] + parts)
  {
    NatRoundTrip(p.count);
    UnitRoundTrip(p.unit);
    ReadPiece(p, NatText(p.count), UnitText(p.unit), rest, parts);
  }

  lemma ReadPiece(p: Part, digits: string, letters: string, rest: string, parts: seq<Part>)
    requires digits != "" && forall i :: 0 <= i < |digits| ==> IsDigit(digits[i])
    requires letters != "" && forall i :: 0 <= i < |letters| ==> !IsDigit(letters[i])
    requires rest == "" || IsDigit(rest[0])
    requires ParseNat(digits) == Some(p.count) && UnitNamed(letters) == Some(p.unit) && ReadParts(rest) == Some(parts)
    ensures ReadParts(digits + letters + rest) == Some([p] + parts)
  {
    ReadOne(digits, letters, rest);
  }

  lemma ReadOne(digits: string, letters: string, rest: string)
    requires digits != "" && forall i :: 0 <= i < |digits| ==> IsDigit(digits[i])
    requires letters != "" && forall i :: 0 <= i < |letters| ==> !IsDigit(letters[i])
    requires rest == "" || IsDigit(rest[0])
    ensures ReadParts(digits + letters + rest) == Consed(ParseNat(digits), UnitNamed(letters), ReadParts(rest))
  {
    var s := digits + letters + rest;
    assert s == digits + (letters + rest);
    var n := |digits|;
    RunLengthIs(digits, letters + rest, true);
    assert s[n..] == letters + rest && s[..n] == digits;
    RunLengthIs(letters, rest, false);
    assert (letters + rest)[..|letters|] == letters && (letters + rest)[|letters|..] == rest;
  }

  datatype Triple = Triple(months: int, days: int, nanos: int)

  function WithSign(negative: bool, n: nat): int {
    if negative then 0 - n else n
  }

  function Totals(parts: seq<Part>, negative: bool): Triple {
    Triple(WithSign(negative, Sum(parts, MonthGroup)), WithSign(negative, Sum(parts, DayGroup)),
        WithSign(negative, Sum(parts, NanoGroup)))
  }

  function ReadDuration(s: string): Option<Triple> {
    var negative := s != "" && s[0] == '-';
    match ReadParts(if negative then s[1..] else s)
    case None => None
    case Some(parts) => Some(Totals(parts, negative))
  }

  /** All three counts with the one sign that is printed. */
  function Canonical(t: Triple): Triple {
    var negative := AnyNegative(t.months, t.days, t.nanos);
    Triple(WithSign(negative, Abs(t.months)), WithSign(negative, Abs(t.days)), WithSign(negative, Abs(t.nanos)))
  }

  ghost predicate SameSigned(t: Triple) {
    (t.months >= 0 && t.days >= 0 && t.nanos >= 0) || (t.months <= 0 && t.days <= 0 && t.nanos <= 0)
  }

  function Show(t: Triple): string {
    DurationText(t.months, t.days, t.nanos)
  }

  lemma ReadShown(t: Triple)
    ensures ReadDuration(Show(t)) == Some(Canonical(t))
  {
    var parts := PartsOf(t.months, t.days, t.nanos);
    PartsRoundTrip(parts);
    StartsWithDigit(parts);
    PartsSum(t.months, t.days, t.nanos, MonthGroup);
    PartsSum(t.months, t.days, t.nanos, DayGroup);
    PartsSum(t.months, t.days, t.nanos, NanoGroup);
    var s := Show(t);
    if AnyNegative(t.months, t.days, t.nanos) {
      assert s[0] == '-' && s[1..] == PartsText(parts);
    } else {
      assert s == PartsText(parts);
    }
  }

  /** The text can be read back exactly when the three counts have one sign. */
  lemma DurationRoundTrip(t: Triple)
    ensures ReadDuration(Show(t)) == Some(t) <==> SameSigned(t)
  {
    ReadShown(t);
    CanonicalSigns(t);
  }

  lemma CanonicalSigns(t: Triple)
    ensures Canonical(t) == t <==> SameSigned(t)
  {
  }

  /** Two durations print alike exactly when they agree up to the signs of their counts. */
  lemma PrintAlike(t: Triple, u: Triple)
    ensures Show(t) == Show(u) <==> Canonical(t) == Canonical(u)
    ensures SameSigned(t) && SameSigned(u) && Show(t) == Show(u) ==> t == u
  {
    ReadShown(t);
    ReadShown(u);
    CanonicalShown(t);
    CanonicalShown(u);
    CanonicalSigns(t);
    CanonicalSigns(u);
  }

  lemma CanonicalShown(t: Triple)
    ensures Show(Canonical(t)) == Show(t)
  {
    var c := Canonical(t);
    assert Abs(c.months) == Abs(t.months) && Abs(c.days) == Abs(t.days) && Abs(c.nanos) == Abs(t.nanos);
  }

  /** One month less a day prints like minus one month less a day. */
  lemma MixedSignsCollide()
    ensures Show(Triple(1, -1, 0)) == Show(Triple(-1, -1, 0))
  {
    PrintAlike(Triple(1, -1, 0), Triple(-1, -1, 0));
  }

  // ---- the builder ----

  function JoinAll(builder: seq<string>): string {
    if builder == [] then "" else JoinAll(builder[..|builder| - 1]) + builder[|builder| - 1]
  }

  lemma {:induction false} PartsTextJoin(a: seq<Part>, b: seq<Part>)
    ensures PartsText(a + b) == PartsText(a) + PartsText(b)
  {
    if a == [] {
      assert a + b == b;
    } else {
      assert (a + b)[1..] == a[1..] + b;
      PartsTextJoin(a[1..], b);
      assert PartText(a[0]) + (PartsText(a[1..]) + PartsText(b)) == PartText(a[0]) + PartsText(a[1..]) + PartsText(b);
    }
  }

  class Builder {
    var pieces: seq<string>

    function Text(): string
      reads this
    {
      JoinAll(pieces)
    }

    constructor ()
      ensures pieces == []
    {
      pieces := [];
    }

    method Push(s: string)
      modifies this
      ensures Text() == old(Text()) + s
    {
      pieces := pieces + [s];
    }

    /** Prints how often `unit` goes into the dividend, or nothing, and returns what is left for the
        smaller units `rest`. */
    method Append(dividend: nat, unit: Unit, ghost rest: seq<Unit>) returns (remainder: nat)
      modifies this
      ensures Text() + PartsText(Breakdown(remainder, rest)) ==
          old(Text()) + PartsText(Breakdown(dividend, [unit] + rest))
    {
      BreakdownHead(dividend, unit, rest);
      var f := Factor(unit);
      if dividend == 0 || dividend < f {
        return dividend;
      }
      Push(NatText(dividend / f));
      Push(UnitText(unit));
      RegroupFour(old(Text()), NatText(dividend / f), UnitText(unit), PartsText(Breakdown(dividend % f, rest)));
      return dividend % f;
    }
  }

  lemma RegroupFour(a: string, b: string, c: string, d: string)
    ensures a + b + c + d == a + (b + c + d)
  {
  }

  /** The text of the first unit, then that of the others. */
  lemma BreakdownHead(n: nat, unit: Unit, rest: seq<Unit>)
    ensures var f := Factor(unit);
      PartsText(Breakdown(n, [unit] + rest)) ==
        if n == 0 || n < f then PartsText(Breakdown(n, rest))
        else NatText(n / f) + UnitText(unit) + PartsText(Breakdown(n % f, rest))
  {
    assert ([unit] + rest)[1..] == rest;
    var f := Factor(unit);
    if n != 0 && n >= f {
      var first, more := Part(n / f, unit), Breakdown(n % f, rest);
      assert ([first] + more)[1..] == more;
    }
  }

  lemma JoinThree(sign: string, a: seq<Part>, b: seq<Part>, c: seq<Part>)
    ensures sign + PartsText(a + b + c) == sign + PartsText(a) + PartsText(b) + PartsText(c)
  {
    PartsTextJoin(a + b, c);
    PartsTextJoin(a, b);
    RegroupFour(sign, PartsText(a), PartsText(b), PartsText(c));
  }

  /** The text of one group. */
  function GroupText(n: nat, g: Group): string {
    PartsText(Breakdown(n, UnitsOf(g)))
  }

  lemma TextOf(months: int, days: int, nanos: int)
    ensures DurationText(months, days, nanos) ==
      (if AnyNegative(months, days, nanos) then "-" else "")
        + GroupText(Abs(months), MonthGroup) + GroupText(Abs(days), DayGroup) + GroupText(Abs(nanos), NanoGroup)
  {
    JoinThree(if AnyNegative(months, days, nanos) then "-" else "",
              Breakdown(Abs(months), UnitsOf(MonthGroup)), Breakdown(Abs(days), UnitsOf(DayGroup)),
                  Breakdown(Abs(nanos), UnitsOf(NanoGroup)));
  }

  method AppendDate(builder: Builder, months: nat, days: nat)
    modifies builder
    ensures builder.Text() == old(builder.Text()) + GroupText(months, MonthGroup) + GroupText(days, DayGroup)
  {
    var remainder := builder.Append(months, Years, [Months]);
    remainder := builder.Append(remainder, Months, []);
    assert [Months] + [] == [Months] && [Years] + [Months] == UnitsOf(MonthGroup);
    assert builder.Text() == old(builder.Text()) + PartsText(Breakdown(months, UnitsOf(MonthGroup)));
    remainder := builder.Append(days, Days, []);
    assert [Days] + [] == UnitsOf(DayGroup);
  }

  method AppendTime(builder: Builder, nanos: nat)
    modifies builder
    ensures builder.Text() == old(builder.Text()) + GroupText(nanos, NanoGroup)
  {
    assert [Hours] + [Minutes, Seconds, Millis, Micros, Nanos] == UnitsOf(NanoGroup);
    assert [Minutes] + [Seconds, Millis, Micros, Nanos] == [Minutes, Seconds, Millis, Micros, Nanos];
    assert [Seconds] + [Millis, Micros, Nanos] == [Seconds, Millis, Micros, Nanos];
    assert [Millis] + [Micros, Nanos] == [Millis, Micros, Nanos];
    assert [Micros] + [Nanos] == [Micros, Nanos];
    assert [Nanos] + [] == [Nanos];
    var remainder := builder.Append(nanos, Hours, [Minutes, Seconds, Millis, Micros, Nanos]);
    remainder := builder.Append(remainder, Minutes, [Seconds, Millis, Micros, Nanos]);
    remainder := builder.Append(remainder, Seconds, [Millis, Micros, Nanos]);
    remainder := builder.Append(remainder, Millis, [Micros, Nanos]);
    remainder := builder.Append(remainder, Micros, [Nanos]);
    remainder := builder.Append(remainder, Nanos, []);
  }

  lemma {:induction false} NothingToBreakDown(units: seq<Unit>)
    ensures Breakdown(0, units) == []
  {
    if units != [] {
      NothingToBreakDown(units[1..]);
    }
  }

  method DurationAsStr(months: int, days: int, nanos: int) returns (s: string)
    ensures s == DurationText(months, days, nanos)
  {
    var builder := new Builder();
    if AnyNegative(months, days, nanos) {
      builder.Push("-");
    }
    ghost var sign := if AnyNegative(months, days, nanos) then "-" else "";
    assert builder.Text() == sign;
    AppendDate(builder, Abs(months), Abs(days));
    AppendTimeIfAny(builder, nanos);
    s := builder.Text();
    TextOf(months, days, nanos);
  }

  method AppendTimeIfAny(builder: Builder, nanos: int)
    modifies builder
    ensures builder.Text() == old(builder.Text()) + GroupText(Abs(nanos), NanoGroup)
  {
    if nanos != 0 {
      AppendTime(builder, Abs(nanos));
    } else {
      NothingToBreakDown(UnitsOf(NanoGroup));
    }
  }
}
