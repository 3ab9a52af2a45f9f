/** Token ring arithmetic: the ranges COPY TO queries, and the ring position COPY FROM routes to. */
module TokenRanges {
  import opened Common

  /** A replica; a host whose state is unknown is not down. */
  datatype Liveness = Up | Down | Unknown
  datatype Host = Host(address: string, up: Liveness, datacenter: string)
  datatype Entry = Entry(token: int, replicas: seq<Host>)
  datatype Session = Session(hostname: string, datacenter: string)

  /** (from, to], where None is no bound. */
  datatype Range = Range(from: Option<int>, to: Option<int>)

  /** The WHERE clause prepare_export_query builds for a range, as a predicate on tokens. */
  predicate Selects(r: Range, x: int) {
    (r.from.Some? ==> x > r.from.value) && (r.to.Some? ==> x <= r.to.value)
  }

  /** Python's truth value of an optional token: 0 counts as absent. */
  predicate Truthy(t: Option<int>) {
    t.Some? && t.value != 0
  }

  predicate Sorted(ring: seq<Entry>) {
    forall i, j :: 0 <= i < j < |ring| ==> ring[i].token < ring[j].token
  }

  /** The part of (prev, curr] inside (begin, end], or None; None as prev is below every token. */
  function MakeRange(begin: Option<int>, end: Option<int>, prev: Option<int>, curr: int): Option<Range> {
    if Truthy(begin) && curr < begin.value then None
    else
      var from := if Truthy(begin) && (prev.None? || prev.value < begin.value) then begin else prev;
      if Truthy(end) && from.Some? && from.value > end.value then None
      else if Truthy(end) && curr > end.value then Some(Range(from, end))
      else Some(Range(from, Some(curr)))
  }

  function LocalAddresses(session: Session, replicas: seq<Host>): seq<string> {
    if replicas == [] then []
    else
      var rest := LocalAddresses(session, replicas[1..]);
      if replicas[0].up == Down || replicas[0].datacenter != session.datacenter then rest
      else [replicas[0].address] + rest
  }

  /** The hosts of a range: its live local replicas, or the session host if there are none. */
  function RangeHosts(session: Session, replicas: seq<Host>): seq<string> {
    var hosts := LocalAddresses(session, replicas);
    if hosts == [] then [session.hostname] else hosts
  }

  /** A replica to export from: not down, and in the session's datacenter. */
  predicate Serves(session: Session, h: Host) {
    h.up != Down && h.datacenter == session.datacenter
  }

  /** `at` are all the places of replicas that serve, in order. */
  ghost predicate ServingAt(session: Session, replicas: seq<Host>, at: seq<nat>) {
    && (forall i, j :: 0 <= i < j < |at| ==> at[i] < at[j])
    && (forall j :: 0 <= j < |at| ==> at[j] < |replicas|)
    && (forall i: nat :: i < |replicas| ==> (i in at <==> Serves(session, replicas[i])))
  }

  /** The hosts are the addresses of the replicas that serve, in their order and as often; or the
      session's own host if no replica does. */
  ghost predicate HostsOf(session: Session, replicas: seq<Host>, hosts: seq<string>) {
    if exists h :: h in replicas && Serves(session, h)
    then exists at: seq<nat> ::
      && ServingAt(session, replicas, at) && |hosts| == |at|
      && forall j :: 0 <= j < |at| ==> at[j] < |replicas| && hosts[j] == replicas[at[j]].address
    else hosts == [session.hostname]
  }

  lemma {:induction false} LocalSnoc(session: Session, replicas: seq<Host>, h: Host)
    ensures LocalAddresses(session, replicas + [h]) ==
            LocalAddresses(session, replicas) + if Serves(session, h) then [h.address] else []
  {
    if replicas == [] {
      assert [] + [h] == [h] && [h][1..] == [];
    } else {
      LocalSnoc(session, replicas[1..], h);
      assert (replicas + [h])[0] == replicas[0] && (replicas + [h])[1..] == replicas[1..] + [h];
    }
  }

  lemma ServingSnoc(session: Session, replicas: seq<Host>, h: Host, at: seq<nat>)
    requires ServingAt(session, replicas, at)
    ensures ServingAt(session, replicas + [h], if Serves(session, h) then at + [|replicas|] else at)
  {
    var more, places := replicas + [h], if Serves(session, h) then at + [|replicas|] else at;
    forall i: nat | i < |more|
      ensures i in places <==> Serves(session, more[i])
    {
      if i < |replicas| {
        assert more[i] == replicas[i] && (i in places <==> i in at);
      } else {
        assert |replicas| !in at;
      }
    }
  }

  lemma {:induction false} ServingPlaces(session: Session, replicas: seq<Host>) returns (at: seq<nat>)
    ensures ServingAt(session, replicas, at) && |LocalAddresses(session, replicas)| == |at|
    ensures forall j :: 0 <= j < |at| ==>
              at[j] < |replicas| && LocalAddresses(session, replicas)[j] == replicas[at[j]].address
    decreases |replicas|
  {
    at := [];
    if replicas != [] {
      var init, h := replicas[..|replicas| - 1], replicas[|replicas| - 1];
      assert replicas == init + [h];
      at := ServingPlaces(session, init);
      LocalSnoc(session, init, h);
      ServingSnoc(session, init, h, at);
      if Serves(session, h) { at := at + [|init|]; }
    }
  }

  lemma RangeHostsExact(session: Session, replicas: seq<Host>)
    ensures HostsOf(session, replicas, RangeHosts(session, replicas))
  {
    var at := ServingPlaces(session, replicas);
    if at == [] {
      forall h | h in replicas
        ensures !Serves(session, h)
      {
        var i :| 0 <= i < |replicas| && replicas[i] == h;
        assert i !in at;
      }
    } else {
      assert at[0] in at && replicas[at[0]] in replicas;
    }
  }

  ghost predicate Covered(ranges: map<Range, seq<string>>, x: int) {
    exists r :: r in ranges && Selects(r, x)
  }

  ghost predicate Disjoint(ranges: map<Range, seq<string>>) {
    forall r, q, x :: r in ranges && q in ranges && Selects(r, x) && Selects(q, x) ==> r == q
  }

  /** The ring entry whose replicas own token `x`: the first token, not the minimum, that is at
      least `x`, wrapping to the first entry. */
  function OwnerFrom(ring: seq<Entry>, min: int, x: int, i: nat): nat
    requires i <= |ring|
    decreases |ring| - i
  {
    if i == |ring| then 0
    else if ring[i].token != min && ring[i].token >= x then i
    else OwnerFrom(ring, min, x, i + 1)
  }

  function Owner(ring: seq<Entry>, min: int, x: int): nat {
    OwnerFrom(ring, min, x, 0)
  }

  lemma {:induction false} OwnerIs(ring: seq<Entry>, min: int, x: int, i: nat, k: nat)
    requires i <= k <= |ring|
    requires k < |ring| ==> ring[k].token != min && ring[k].token >= x
    requires forall j :: i <= j < k ==> ring[j].token == min || ring[j].token < x
    ensures OwnerFrom(ring, min, x, i) == if k < |ring| then k else 0
    decreases k - i
  {
    if i < k { OwnerIs(ring, min, x, i + 1, k); }
  }

  /** Some ring token other than the minimum is not below the begin token. */
  ghost predicate Reaches(ring: seq<Entry>, min: int, begin: Option<int>) {
    Truthy(begin) ==> exists i :: 0 <= i < |ring| && ring[i].token != min && ring[i].token >= begin.value
  }

  /** The tokens actually queried on a ring of two or more entries. */
  ghost predicate Queried(ring: seq<Entry>, min: int, begin: Option<int>, end: Option<int>, x: int)
    requires ring != []
  {
    var last := ring[|ring| - 1].token;
    && Reaches(ring, min, begin)
    && (Truthy(begin) ==> x > begin.value)
    && (end.Some? ==> x <= if end.value != 0 then end.value else if last > 0 then last else 0)
  }

  /** A range with the hosts of ring entry `i`, which owns all its tokens. */
  ghost predicate Owned(session: Session, ring: seq<Entry>, min: int, r: Range, hosts: seq<string>, i: nat) {
    && i < |ring| && HostsOf(session, ring[i].replicas, hosts)
    && forall x :: Selects(r, x) ==> i == Owner(ring, min, x)
  }

  /** Each range is owned by the entry recorded for it. */
  ghost predicate OwnersOk(session: Session, ring: seq<Entry>, min: int, ranges: map<Range, seq<string>>,
      owner: map<Range, nat>) {
    forall r :: r in ranges ==> r in owner && Owned(session, ring, min, r, ranges[r], owner[r])
  }

  /** Clipped to (begin, end] as far as those count. */
  predicate Clipped(begin: Option<int>, end: Option<int>, x: int) {
    (Truthy(begin) ==> x > begin.value) && (Truthy(end) ==> x <= end.value)
  }

  /** What the ranges found in the first `i` entries cover. */
  ghost predicate Progress(ring: seq<Entry>, min: int, begin: Option<int>, end: Option<int>, i: nat,
      previous: Option<int>, ranges: map<Range, seq<string>>)
    requires i <= |ring|
  {
    if previous.None? then
      ranges == map[] && forall j :: 0 <= j < i && ring[j].token != min ==> Truthy(begin) && ring[j].token < begin.value
    else
      && (forall x :: Covered(ranges, x) <==> x <= previous.value && Clipped(begin, end, x))
      && (exists j :: 0 <= j < i && ring[j].token != min && ring[j].token == previous.value)
      && (Truthy(begin) ==> begin.value <= previous.value)
      && ((Truthy(end) && end.value < previous.value) || PassedAll(ring, min, i, previous.value))
  }

  predicate PassedAll(ring: seq<Entry>, min: int, i: nat, p: int)
    requires i <= |ring|
  {
    forall j :: 0 <= j < i && ring[j].token != min ==> ring[j].token <= p
  }

  /** A token in the range just made is owned by the entry it was made from, and is new. */
  lemma NewRange(ring: seq<Entry>, min: int, begin: Option<int>, end: Option<int>, i: nat, previous: Option<int>,
      ranges: map<Range, seq<string>>, x: int)
    requires Sorted(ring) && i < |ring| && ring[i].token != min && Progress(ring, min, begin, end, i, previous, ranges)
    requires MakeRange(begin, end, previous, ring[i].token).Some?
        && Selects(MakeRange(begin, end, previous, ring[i].token).value, x)
    ensures Owner(ring, min, x) == i && !Covered(ranges, x)
  {
    forall j | 0 <= j < i
      ensures ring[j].token == min || ring[j].token < x
    {
      assert ring[j].token < ring[i].token;
    }
    OwnerIs(ring, min, x, 0, i);
  }

  lemma Advance(ring: seq<Entry>, min: int, begin: Option<int>, end: Option<int>, i: nat, previous: Option<int>,
                ranges: map<Range, seq<string>>, more: map<Range, seq<string>>)
    requires Sorted(ring) && i < |ring| && ring[i].token != min && Progress(ring, min, begin, end, i, previous, ranges)
    requires Truthy(begin) && Truthy(end) ==> begin.value <= end.value
    requires
      var current := MakeRange(begin, end, previous, ring[i].token);
      current.Some? && forall x :: Covered(more, x) <==> Covered(ranges, x) || Selects(current.value, x)
    ensures Progress(ring, min, begin, end, i + 1, Some(ring[i].token), more)
  {
    var token := ring[i].token;
    if previous.None? {
      assert forall x :: !Covered(ranges, x);
    } else {
      var j :| 0 <= j < i && ring[j].token != min && ring[j].token == previous.value;
      assert previous.value < token;
    }
    assert ring[i].token == token;
  }

  lemma Skip(ring: seq<Entry>, min: int, begin: Option<int>, end: Option<int>, i: nat, previous: Option<int>,
      ranges: map<Range, seq<string>>)
    requires Sorted(ring) && i < |ring| && Progress(ring, min, begin, end, i, previous, ranges)
    requires Truthy(begin) && Truthy(end) ==> begin.value <= end.value
    requires ring[i].token == min || MakeRange(begin, end, previous, ring[i].token).None?
    ensures Progress(ring, min, begin, end, i + 1, previous, ranges)
  {
    if previous.Some? {
      var j :| 0 <= j < i && ring[j].token != min && ring[j].token == previous.value;
      assert ring[j].token < ring[i].token;
    }
  }

  /** The range past the last entry wraps to the first one, and completes what is queried. */
  lemma Wrap(ring: seq<Entry>, min: int, begin: Option<int>, end: Option<int>, p: int, ranges: map<Range,
      seq<string>>, x: int)
    requires Sorted(ring) && Progress(ring, min, begin, end, |ring|, Some(p), ranges)
    requires !Truthy(end) || p < end.value
    ensures Selects(Range(Some(p), end), x) ==> Owner(ring, min, x) == 0 && !Covered(ranges, x)
  {
    if Selects(Range(Some(p), end), x) { OwnerIs(ring, min, x, 0, |ring|); }
  }

  lemma LastPassed(ring: seq<Entry>, min: int, begin: Option<int>, end: Option<int>, p: int, ranges: map<Range,
      seq<string>>)
    requires |ring| >= 2 && Sorted(ring) && ring[0].token >= min
    requires Progress(ring, min, begin, end, |ring|, Some(p), ranges) && (!Truthy(end) || p < end.value)
    ensures p == ring[|ring| - 1].token
  {
    assert ring[0].token < ring[|ring| - 1].token;
    var j :| 0 <= j < |ring| && ring[j].token != min && ring[j].token == p;
  }

  lemma NoneReached(ring: seq<Entry>, min: int, begin: Option<int>, end: Option<int>, ranges: map<Range, seq<string>>)
    requires |ring| >= 2 && Sorted(ring) && ring[0].token >= min
    requires Progress(ring, min, begin, end, |ring|, None, ranges)
    ensures !Reaches(ring, min, begin)
  {
    assert ring[0].token < ring[|ring| - 1].token;
  }

  /** The loop of get_ranges over a ring of two or more entries. The ghost result names the ring
      entry each range takes its hosts from. */
  method LoopRing(session: Session, ring: seq<Entry>, min: int, begin: Option<int>, end: Option<int>)
    returns (ranges: map<Range, seq<string>>, ghost owner: map<Range, nat>)
    requires |ring| >= 2 && Sorted(ring) && ring[0].token >= min
    requires Truthy(begin) && Truthy(end) ==> begin.value <= end.value
    ensures forall x :: Covered(ranges, x) <==> Queried(ring, min, begin, end, x)
    ensures Disjoint(ranges) && OwnersOk(session, ring, min, ranges, owner)
  {
    ranges, owner := map[], map[];
    var firstHosts := RangeHosts(session, ring[0].replicas);
    var previous: Option<int> := None;
    for i := 0 to |ring|
      invariant Progress(ring, min, begin, end, i, previous, ranges)
      invariant Disjoint(ranges) && OwnersOk(session, ring, min, ranges, owner)
    {
      var token := ring[i].token;
      var current := MakeRange(begin, end, previous, token);
      if token == min || current.None? {
        Skip(ring, min, begin, end, i, previous, ranges);
        continue;
      }
      ghost var before, earlier := ranges, owner;
      forall x | Selects(current.value, x)
        ensures Owner(ring, min, x) == i && !Covered(before, x)
      {
        NewRange(ring, min, begin, end, i, previous, before, x);
      }
      ranges := ranges[current.value := RangeHosts(session, ring[i].replicas)];
      owner := owner[current.value := i];
      AddRange(before, current.value, ranges[current.value]);
      AddOwner(session, ring, min, before, earlier, current.value, i);
      Advance(ring, min, begin, end, i, previous, before, ranges);
      previous := Some(token);
    }
    if previous.Some? && (!Truthy(end) || previous.value < end.value) {
      var wrap := Range(previous, end);
      ghost var before, earlier := ranges, owner;
      forall x | Selects(wrap, x)
        ensures Owner(ring, min, x) == 0 && !Covered(before, x)
      {
        Wrap(ring, min, begin, end, previous.value, before, x);
      }
      ranges := ranges[wrap := firstHosts];
      owner := owner[wrap := 0];
      AddRange(before, wrap, firstHosts);
      AddOwner(session, ring, min, before, earlier, wrap, 0);
      Complete(ring, min, begin, end, previous, before, ranges);
    } else {
      Complete(ring, min, begin, end, previous, ranges, ranges);
    }
  }

  lemma AddOwner(session: Session, ring: seq<Entry>, min: int, ranges: map<Range, seq<string>>,
      owner: map<Range, nat>, r: Range, i: nat)
    requires OwnersOk(session, ring, min, ranges, owner) && i < |ring|
    requires forall x :: Selects(r, x) ==> Owner(ring, min, x) == i
    ensures OwnersOk(session, ring, min, ranges[r := RangeHosts(session, ring[i].replicas)], owner[r := i])
  {
    RangeHostsExact(session, ring[i].replicas);
    assert Owned(session, ring, min, r, RangeHosts(session, ring[i].replicas), i);
  }

  /** The ranges without, and with, the wrapped one cover exactly what is queried. */
  lemma Complete(ring: seq<Entry>, min: int, begin: Option<int>, end: Option<int>, previous: Option<int>,
                 ranges: map<Range, seq<string>>, all: map<Range, seq<string>>)
    requires |ring| >= 2 && Sorted(ring) && ring[0].token >= min
    requires Progress(ring, min, begin, end, |ring|, previous, ranges)
    requires
      if previous.Some? && (!Truthy(end) || previous.value < end.value)
      then forall x :: Covered(all, x) <==> Covered(ranges, x) || Selects(Range(previous, end), x)
      else all == ranges
    ensures forall x :: Covered(all, x) <==> Queried(ring, min, begin, end, x)
  {
    if previous.None? {
      NoneReached(ring, min, begin, end, ranges);
      assert forall x :: !Covered(ranges, x);
    } else {
      var j :| 0 <= j < |ring| && ring[j].token != min && ring[j].token == previous.value;
      assert Reaches(ring, min, begin);
      if !Truthy(end) || previous.value < end.value {
        LastPassed(ring, min, begin, end, previous.value, ranges);
      }
    }
  }

  lemma AddRange(ranges: map<Range, seq<string>>, r: Range, hosts: seq<string>)
    requires Disjoint(ranges) && forall x :: Selects(r, x) ==> !Covered(ranges, x)
    ensures Disjoint(ranges[r := hosts])
    ensures forall x :: Covered(ranges[r := hosts], x) <==> Covered(ranges, x) || Selects(r, x)
  {
    var more := ranges[r := hosts];
    forall x
      ensures Covered(more, x) <==> Covered(ranges, x) || Selects(r, x)
    {
      if Covered(ranges, x) {
        var q :| q in ranges && Selects(q, x);
        assert q in more;
      }
      if Selects(r, x) { assert r in more; }
    }
  }

  // ---- get_ranges ----

  /** The requests get_ranges refuses with an error message: a begin token other than 0 below the
      minimum, or above an end token other than 0. */
  ghost predicate Refused(min: Option<int>, begin: Option<int>, end: Option<int>) {
    || (begin.Some? && begin.value != 0 && min.Some? && begin.value < min.value)
    || (begin.Some? && begin.value != 0 && end.Some? && end.value != 0 && begin.value > end.value)
  }

  method GetRanges(session: Session, hasTokenMap: bool, ring: seq<Entry>, min: Option<int>, begin: Option<int>,
      end: Option<int>)
    returns (ranges: map<Range, seq<string>>, ghost owner: map<Range, nat>)
    requires Sorted(ring) && (ring != [] && min.Some? ==> ring[0].token >= min.value)
    ensures Disjoint(ranges)
    ensures Refused(min, begin, end) ==> ranges == map[]
    ensures !Refused(min, begin, end) && (!hasTokenMap || min.None? || ring == []) ==>
              ranges == map[Range(begin, end) := [session.hostname]]
    ensures !Refused(min, begin, end) && hasTokenMap && min.Some? && |ring| == 1 ==>
              ranges.Keys == {Range(begin, end)} && HostsOf(session, ring[0].replicas, ranges[Range(begin, end)])
    ensures !Refused(min, begin, end) && hasTokenMap && min.Some? && |ring| >= 2 ==>
              && (forall x :: Covered(ranges, x) <==> Queried(ring, min.value, begin, end, x))
              && OwnersOk(session, ring, min.value, ranges, owner)
  {
    ranges, owner := map[], map[];
    if Truthy(begin) && min.Some? && begin.value < min.value { return; }
    if Truthy(begin) && Truthy(end) && begin.value > end.value { return; }
    if !hasTokenMap || min.None? {
      ranges := map[Range(begin, end) := RangeHosts(session, [])];
    } else if ring == [] {
      ranges := map[Range(begin, end) := RangeHosts(session, [])];
    } else if |ring| == 1 {
      ranges := map[Range(begin, end) := RangeHosts(session, ring[0].replicas)];
      RangeHostsExact(session, ring[0].replicas);
    } else {
      ranges, owner := LoopRing(session, ring, min.value, begin, end);
    }
  }

  /** When the ranges of a ring of two or more entries select exactly (begin, end]. A begin token 0
      is ignored; an end token 0 only ends the export if the ring does; and a begin token beyond
      the ring yields no range at all. */
  ghost predicate RangesFit(ring: seq<Entry>, min: int, begin: Option<int>, end: Option<int>)
    requires ring != []
  {
    var last := ring[|ring| - 1].token;
    && begin != Some(0)
    && (Reaches(ring, min, begin) && end == Some(0) ==> last <= 0 || (begin.Some? && begin.value >= last))
    && (!Reaches(ring, min, begin) ==> end.Some? && end.value <= begin.value)
  }

  lemma RangesExact(ring: seq<Entry>, min: int, begin: Option<int>, end: Option<int>)
    requires |ring| >= 2 && Sorted(ring) && ring[0].token >= min
    requires !Refused(Some(min), begin, end)
    ensures (forall x :: Queried(ring, min, begin, end, x) <==> Selects(Range(begin, end), x)) <==>
        RangesFit(ring, min, begin, end)
  {
    var last := ring[|ring| - 1].token;
    if !RangesFit(ring, min, begin, end) {
      var x := Misfit(ring, min, begin, end);
    } else if Reaches(ring, min, begin) && Truthy(begin) && end == Some(0) {
      var i :| 0 <= i < |ring| && ring[i].token != min && ring[i].token >= begin.value;
      assert i < |ring| - 1 ==> ring[i].token < last;
    }
  }

  /** Otherwise some token is queried but not wanted, or wanted but not queried. */
  lemma Misfit(ring: seq<Entry>, min: int, begin: Option<int>, end: Option<int>) returns (x: int)
    requires |ring| >= 2 && Sorted(ring) && ring[0].token >= min
    requires !Refused(Some(min), begin, end) && !RangesFit(ring, min, begin, end)
    ensures Queried(ring, min, begin, end, x) <==> !Selects(Range(begin, end), x)
  {
    var last := ring[|ring| - 1].token;
    if begin == Some(0) {
      x := if end.Some? && end.value < 0 then end.value else 0;
    } else if !Reaches(ring, min, begin) {
      x := begin.value + 1;
    } else {
      x := last;
    }
  }

  /** The failing family in one instance: a ring that ends at 50, and a begin token of 60. */
  lemma BeginBeyondRing()
    ensures
      var ring := [Entry(-100, []), Entry(50, [])];
      && !Refused(Some(-200), Some(60), Some(70))
      && !Queried(ring, -200, Some(60), Some(70), 65) && Selects(Range(Some(60), Some(70)), 65)
  {
    var ring := [Entry(-100, []), Entry(50, [])];
    assert !Reaches(ring, -200, Some(60));
  }

  // ---- the ring position COPY FROM uses ----

  /** bisect_right on the sorted ring tokens: how many are at most `val`. */
  function BisectRight(ring: seq<Entry>, val: int): (n: nat)
    ensures n <= |ring|
  {
    if ring == [] || ring[0].token > val then 0 else 1 + BisectRight(ring[1..], val)
  }

  function RingPos(ring: seq<Entry>, val: int): nat {
    var idx := BisectRight(ring, val);
    if idx < |ring| then idx else 0
  }

  lemma {:induction false} BisectSplits(ring: seq<Entry>, val: int)
    requires Sorted(ring)
    ensures forall i :: 0 <= i < |ring| ==> (i < BisectRight(ring, val) <==> ring[i].token <= val)
  {
    if ring != [] {
      BisectSplits(ring[1..], val);
      forall i | 0 <= i < |ring|
        ensures i < BisectRight(ring, val) <==> ring[i].token <= val
      {
        if i > 0 {
          assert ring[i] == ring[1..][i - 1];
          assert ring[0].token < ring[i].token;
        }
      }
    }
  }

  ghost predicate IsRingToken(ring: seq<Entry>, val: int) {
    exists i :: 0 <= i < |ring| && ring[i].token == val
  }

  /** Import and export send a partition token to the same ring entry, except for the ring tokens
      themselves other than the minimum (and for no token at all below a minimum on the ring). */
  lemma RoutingAgrees(ring: seq<Entry>, min: int, val: int)
    requires |ring| >= 2 && Sorted(ring) && ring[0].token >= min
    ensures RingPos(ring, val) == Owner(ring, min, val) <==>
            (!IsRingToken(ring, val) || val == min) && !(ring[0].token == min && val < min)
  {
    BisectSplits(ring, val);
    var n := BisectRight(ring, val);
    assert n > 0 ==> ring[n - 1].token <= val;
    if n > 0 && ring[n - 1].token == val && val != min {
      assert IsRingToken(ring, val);
      OwnerIs(ring, min, val, 0, n - 1);
    } else {
      var k := if n == 0 && ring[0].token == min then 1 else n;
      forall j | 0 <= j < k
        ensures ring[j].token == min || ring[j].token < val
      {
        assert j + 1 < n ==> ring[j].token < ring[n - 1].token;
      }
      assert 0 < k < |ring| ==> ring[0].token < ring[k].token;
      OwnerIs(ring, min, val, 0, k);
    }
  }

  /** A token on the ring: export takes it for the last of the range that ends there, import sends it
      to the next entry. */
  lemma RingTokenDisagrees()
    ensures
      var ring := [Entry(-100, []), Entry(0, []), Entry(50, [])];
      Owner(ring, -200, 0) == 1 && RingPos(ring, 0) == 2
  {
    var ring := [Entry(-100, []), Entry(0, []), Entry(50, [])];
    RoutingAgrees(ring, -200, 0);
    OwnerIs(ring, -200, 0, 0, 1);
    BisectSplits(ring, 0);
    assert ring[0].token == -100 && ring[1].token == 0 && ring[2].token == 50;
  }
}
