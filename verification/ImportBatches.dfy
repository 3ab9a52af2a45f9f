/** split_into_batches: rows of a chunk grouped by ring position, or by replica when there are few. */
module ImportBatches {
  import opened Common
  import opened TokenRanges

  type Row = int

  /** The token of a row's partition key; None when computing it raises. */
  type Tokenizer = Row -> Option<int>

  datatype Batch = Batch(replicas: seq<Host>, rows: seq<Row>)

  /** How often `x` occurs. */
  function Occ<T(==)>(s: seq<T>, x: T): nat {
    if s == [] then 0 else (if s[0] == x then 1 else 0) + Occ(s[1..], x)
  }

  lemma {:induction false} OccConcat<T>(a: seq<T>, b: seq<T>, x: T)
    ensures Occ(a + b, x) == Occ(a, x) + Occ(b, x)
  {
    if a == [] {
      assert a + b == b;
    } else {
      OccConcat(a[1..], b, x);
      assert (a + b)[1..] == a[1..] + b;
    }
  }

  lemma {:induction false} OccIn<T>(s: seq<T>, x: T)
    ensures x in s <==> Occ(s, x) > 0
  {
    if s != [] { OccIn(s[1..], x); }
  }

  /** All rows of some batches, in order. */
  function AllRows(bs: seq<Batch>): seq<Row> {
    if bs == [] then [] else bs[0].rows + AllRows(bs[1..])
  }

  lemma {:induction false} AllRowsConcat(a: seq<Batch>, b: seq<Batch>)
    ensures AllRows(a + b) == AllRows(a) + AllRows(b)
  {
    if a == [] {
      assert a + b == b;
    } else {
      AllRowsConcat(a[1..], b);
      assert (a + b)[0] == a[0] && (a + b)[1..] == a[1..] + b;
      Regroup(a[0].rows, AllRows(a[1..]), AllRows(b));
    }
  }

  lemma AllRowsSnoc(bs: seq<Batch>, b: Batch)
    ensures AllRows(bs + [b]) == AllRows(bs) + b.rows
  {
    AllRowsConcat(bs, [b]);
    assert [b][1..] == [];
    assert AllRows([b]) == b.rows + AllRows([]) == b.rows;
  }

  /** The ring position a row is routed to. */
  function Position(ring: seq<Entry>, token: Tokenizer, row: Row): (p: Option<nat>)
    ensures ring != [] && p.Some? ==> p.value < |ring|
  {
    var t := token(row);
    if t.None? then None else Some(RingPos(ring, t.value))
  }

  predicate Usable(dc: string, h: Host) {
    h.up != Down && h.datacenter == dc
  }

  /** Where a row belongs on the ring; None when that cannot be computed. */
  type Router = Row -> Option<nat>

  /** The usable hosts, each as often as before, in any order. */
  ghost predicate AllUsable(dc: string, hosts: seq<Host>, replicas: seq<Host>) {
    forall h :: Occ(replicas, h) == if Usable(dc, h) then Occ(hosts, h) else 0
  }

  /** One usable host, or none if there is none. */
  ghost predicate OneUsable(dc: string, hosts: seq<Host>, replicas: seq<Host>) {
    if exists h :: h in hosts && Usable(dc, h) then |replicas| == 1 && replicas[0] in hosts && Usable(dc, replicas[0])
    else replicas == []
  }

  /** filter_replicas: the usable hosts in an arbitrary order. */
  method FilterReplicas(hosts: seq<Host>, dc: string) returns (usable: seq<Host>)
    ensures AllUsable(dc, hosts, usable)
  {
    usable := [];
    var left := hosts;
    while left != []
      invariant forall h ::
        Occ(usable, h) + (if Usable(dc, h) then Occ(left, h) else 0) == (if Usable(dc, h) then Occ(hosts, h) else 0)
      decreases |left|
    {
      var i :| 0 <= i < |left|;
      ghost var before := usable;
      if left[i].up != Down && left[i].datacenter == dc { usable := usable + [left[i]]; }
      forall h
        ensures Occ(left, h) == (if left[i] == h then 1 else 0) + Occ(left[..i] + left[i + 1..], h)
      {
        OccConcat(left[..i], left[i..], h);
        OccConcat(left[..i], left[i + 1..], h);
        assert left == left[..i] + left[i..] && left[i..][1..] == left[i + 1..];
      }
      forall h
        ensures Occ(before + [left[i]], h) == Occ(before, h) + if left[i] == h then 1 else 0
      {
        OccConcat(before, [left[i]], h);
        assert [left[i]][1..] == [];
      }
      left := left[..i] + left[i + 1..];
    }
  }

  /** The first of the usable hosts, if there is one. */
  lemma FirstUsable(dc: string, hosts: seq<Host>, usable: seq<Host>)
    requires AllUsable(dc, hosts, usable)
    ensures OneUsable(dc, hosts, usable[..if usable == [] then 0 else 1])
  {
    if h :| h in hosts && Usable(dc, h) {
      OccIn(hosts, h);
      OccIn(usable, h);
    }
    if usable != [] {
      OccIn(usable, usable[0]);
      OccIn(hosts, usable[0]);
    }
  }

  method ReplicaKey(hosts: seq<Host>, dc: string) returns (key: seq<Host>)
    ensures OneUsable(dc, hosts, key)
  {
    var usable := FilterReplicas(hosts, dc);
    key := usable[..if usable == [] then 0 else 1];
    FirstUsable(dc, hosts, usable);
  }

  // ---- cutting rows into batches ----

  /** The rows in order, in batches that are full except perhaps the last. */
  ghost predicate IsCut(max: nat, rows: seq<Row>, bs: seq<Batch>) {
    && AllRows(bs) == rows
    && (forall i :: 0 <= i < |bs| ==> 1 <= |bs[i].rows| <= max)
    && (forall i :: 0 <= i < |bs| - 1 ==> |bs[i].rows| == max)
  }

  /** One batch for each group of at most `max` rows, with the candidate replicas filtered anew if asked. */
  method CutRows(dc: string, max: nat, rows: seq<Row>, candidates: seq<Host>, reshuffle: bool)
    returns (bs: seq<Batch>)
    requires max >= 1
    ensures IsCut(max, rows, bs)
    ensures forall i :: 0 <= i < |bs| ==>
              if reshuffle then AllUsable(dc, candidates, bs[i].replicas) else bs[i].replicas == candidates
  {
    bs := [];
    var i := 0;
    while i < |rows|
      invariant 0 <= i <= |rows|
      invariant IsCut(max, rows[..i], bs)
      invariant i < |rows| ==> forall k :: 0 <= k < |bs| ==> |bs[k].rows| == max
      invariant forall k :: 0 <= k < |bs| ==>
        if reshuffle then AllUsable(dc, candidates, bs[k].replicas) else bs[k].replicas == candidates
    {
      var end := if i + max < |rows| then i + max else |rows|;
      var replicas := candidates;
      if reshuffle { replicas := FilterReplicas(candidates, dc); }
      var b := Batch(replicas, rows[i..end]);
      AllRowsSnoc(bs, b);
      assert rows[..i] + rows[i..end] == rows[..end];
      bs := bs + [b];
      i := end;
    }
    assert rows[..i] == rows;
  }

  function Lookup<K, V>(m: map<K, seq<V>>, k: K): seq<V> {
    if k in m then m[k] else []
  }

  lemma OccSnoc<T>(s: seq<T>, x: T, y: T)
    ensures Occ(s + [x], y) == Occ(s, y) + if x == y then 1 else 0
  {
    OccConcat(s, [x], y);
    assert [x][1..] == [];
  }

  /** The rows routed to `q`, in their order; None for the rows that cannot be routed. */
  function RoutedTo(pos: Router, rows: seq<Row>, q: Option<nat>): seq<Row> {
    if rows == [] then [] else (if pos(rows[0]) == q then [rows[0]] else []) + RoutedTo(pos, rows[1..], q)
  }

  lemma {:induction false} RoutedSnoc(pos: Router, rows: seq<Row>, row: Row, q: Option<nat>)
    ensures RoutedTo(pos, rows + [row], q) == RoutedTo(pos, rows, q) + if pos(row) == q then [row] else []
  {
    if rows == [] {
      assert (rows + [row])[1..] == [];
    } else {
      assert (rows + [row])[0] == rows[0] && (rows + [row])[1..] == rows[1..] + [row];
      RoutedSnoc(pos, rows[1..], row, q);
      var head := if pos(rows[0]) == q then [rows[0]] else [];
      Regroup(head, RoutedTo(pos, rows[1..], q), if pos(row) == q then [row] else []);
    }
  }

  /** Every list holds the rows of its position in order. */
  ghost predicate InOrder(pos: Router, rows: seq<Row>, errors: seq<Row>, byPos: map<nat, seq<Row>>) {
    errors == RoutedTo(pos, rows, None) && forall p: nat :: Lookup(byPos, p) == RoutedTo(pos, rows, Some(p))
  }

  lemma OrderRow(pos: Router, rows: seq<Row>, row: Row, errors: seq<Row>, byPos: map<nat, seq<Row>>)
    requires InOrder(pos, rows, errors, byPos)
    ensures pos(row).None? ==> InOrder(pos, rows + [row], errors + [row], byPos)
    ensures pos(row).Some? ==>
              InOrder(pos, rows + [row], errors, byPos[pos(row).value := Lookup(byPos, pos(row).value) + [row]])
  {
    RoutedSnoc(pos, rows, row, None);
    forall p: nat
      ensures RoutedTo(pos, rows + [row], Some(p)) ==
              RoutedTo(pos, rows, Some(p)) + if pos(row) == Some(p) then [row] else []
    {
      RoutedSnoc(pos, rows, row, Some(p));
    }
  }

  lemma {:induction false} RoutedOcc(pos: Router, rows: seq<Row>, q: Option<nat>, r: Row)
    ensures Occ(RoutedTo(pos, rows, q), r) == if pos(r) == q then Occ(rows, r) else 0
  {
    if rows != [] {
      RoutedOcc(pos, rows[1..], q, r);
      var head := if pos(rows[0]) == q then [rows[0]] else [];
      OccConcat(head, RoutedTo(pos, rows[1..], q), r);
      assert Occ(head, r) == if head != [] && rows[0] == r then 1 else 0 by { assert [rows[0]][1..] == []; }
    }
  }

  method GroupByPosition(ring: seq<Entry>, pos: Router, rows: seq<Row>)
    returns (errors: seq<Row>, byPos: map<nat, seq<Row>>)
    requires forall row :: pos(row).Some? ==> pos(row).value < |ring|
    ensures InOrder(pos, rows, errors, byPos)
    ensures forall p :: p in byPos ==> byPos[p] != [] && p < |ring|
  {
    errors, byPos := [], map[];
    for i := 0 to |rows|
      invariant InOrder(pos, rows[..i], errors, byPos)
      invariant forall p :: p in byPos ==> byPos[p] != [] && p < |ring|
    {
      var row := rows[i];
      var p := pos(row);
      OrderRow(pos, rows[..i], row, errors, byPos);
      assert rows[..i + 1] == rows[..i] + [row];
      if p.None? {
        errors := errors + [row];
      } else {
        byPos := byPos[p.value := Lookup(byPos, p.value) + [row]];
      }
    }
    assert rows[..|rows|] == rows;
  }

  // ---- the plan behind the batches ----

  /** A chunk to be split, with all that decides how. */
  datatype Job = Job(ring: seq<Entry>, pos: Router, dc: string, min: int, max: nat, rows: seq<Row>)

  /** Rows batched together: those of one ring position, or those of several positions that share a
      replica key, position by position. */
  datatype Group = AtPosition(p: nat) | AtReplica(key: seq<Host>, places: seq<nat>)

  function Places(g: Group): seq<nat> {
    match g
    case AtPosition(p) => [p]
    case AtReplica(_, places) => places
  }

  function AllPlaces(plan: seq<Group>): seq<nat> {
    if plan == [] then [] else Places(plan[0]) + AllPlaces(plan[1..])
  }

  /** The rows of one position, in their order. */
  function RowsOf(job: Job, p: nat): seq<Row> {
    RoutedTo(job.pos, job.rows, Some(p))
  }

  /** The rows of the given positions, one position after the other. */
  function RowsAt(job: Job, places: seq<nat>): seq<Row> {
    if places == [] then [] else RowsOf(job, places[0]) + RowsAt(job, places[1..])
  }

  ghost predicate IsPlace(job: Job, p: nat) {
    p < |job.ring| && RowsOf(job, p) != []
  }

  /** A position with few rows whose replicas allow the key. */
  ghost predicate Shares(job: Job, key: seq<Host>, p: nat) {
    IsPlace(job, p) && |RowsOf(job, p)| <= job.min && OneUsable(job.dc, job.ring[p].replicas, key)
  }

  /** A position with more than the minimum of rows is a group by itself; the others go together by
      one usable replica, or by none if they have none. */
  ghost predicate GroupOk(job: Job, g: Group) {
    match g
    case AtPosition(p) => IsPlace(job, p) && |RowsOf(job, p)| > job.min
    case AtReplica(key, places) => forall p :: p in places ==> Shares(job, key, p)
  }

  ghost predicate Carries(job: Job, g: Group, b: Batch) {
    match g
    case AtPosition(p) => p < |job.ring| && AllUsable(job.dc, job.ring[p].replicas, b.replicas)
    case AtReplica(key, _) => b.replicas == key
  }

  ghost predicate GroupDone(job: Job, g: Group, bs: seq<Batch>) {
    && GroupOk(job, g) && IsCut(job.max, RowsAt(job, Places(g)), bs)
    && forall i :: 0 <= i < |bs| ==> Carries(job, g, bs[i])
  }

  /** The batches are those of the groups of the plan, one group after the other. */
  ghost predicate Follows(job: Job, plan: seq<Group>, pieces: seq<seq<Batch>>, batches: seq<Batch>) {
    && |plan| == |pieces| && batches == Flatten(pieces)
    && forall i :: 0 <= i < |plan| ==> GroupDone(job, plan[i], pieces[i])
  }

  /** Different groups by replica have different keys. */
  ghost predicate KeysDiffer(plan: seq<Group>) {
    forall i, j :: 0 <= i < j < |plan| && plan[i].AtReplica? && plan[j].AtReplica? ==> plan[i].key != plan[j].key
  }

  /** Every position with rows is in exactly one group. */
  ghost predicate EveryPlaceOnce(job: Job, plan: seq<Group>) {
    forall p :: Occ(AllPlaces(plan), p) == if RowsOf(job, p) != [] then 1 else 0
  }

  lemma {:induction false} RowsAtConcat(job: Job, a: seq<nat>, b: seq<nat>)
    ensures RowsAt(job, a + b) == RowsAt(job, a) + RowsAt(job, b)
  {
    if a == [] {
      assert a + b == b;
    } else {
      RowsAtConcat(job, a[1..], b);
      assert (a + b)[0] == a[0] && (a + b)[1..] == a[1..] + b;
      Regroup(RowsOf(job, a[0]), RowsAt(job, a[1..]), RowsAt(job, b));
    }
  }

  lemma RowsAtOne(job: Job, p: nat)
    ensures RowsAt(job, [p]) == RowsOf(job, p)
  {
    assert [p][1..] == [];
    assert RowsAt(job, [p]) == RowsOf(job, p) + [];
  }

  lemma {:induction false} PlacesSnoc(a: seq<Group>, g: Group)
    ensures AllPlaces(a + [g]) == AllPlaces(a) + Places(g)
  {
    if a == [] {
      assert [] + [g] == [g] && [g][1..] == [];
    } else {
      PlacesSnoc(a[1..], g);
      assert (a + [g])[0] == a[0] && (a + [g])[1..] == a[1..] + [g];
      Regroup(Places(a[0]), AllPlaces(a[1..]), Places(g));
    }
  }

  /** One more group. */
  lemma FollowsMore(
    job: Job, plan: seq<Group>, pieces: seq<seq<Batch>>, batches: seq<Batch>, g: Group, bs: seq<Batch>)
    requires Follows(job, plan, pieces, batches) && GroupDone(job, g, bs)
    ensures Follows(job, plan + [g], pieces + [bs], batches + bs)
  {
    FlattenSnoc(pieces, bs);
  }

  lemma {:induction false} FollowedRows(job: Job, plan: seq<Group>, pieces: seq<seq<Batch>>, batches: seq<Batch>)
    requires Follows(job, plan, pieces, batches)
    ensures AllRows(batches) == RowsAt(job, AllPlaces(plan))
    decreases |plan|
  {
    if plan != [] {
      var rest := Flatten(pieces[1..]);
      assert forall i :: 0 <= i < |plan| - 1 ==> plan[1..][i] == plan[i + 1] && pieces[1..][i] == pieces[i + 1];
      FollowedRows(job, plan[1..], pieces[1..], rest);
      AllRowsConcat(pieces[0], rest);
      RowsAtConcat(job, Places(plan[0]), AllPlaces(plan[1..]));
    }
  }

  lemma {:induction false} RowsAtOcc(job: Job, places: seq<nat>, r: Row)
    requires forall p :: Occ(places, p) <= 1
    ensures Occ(RowsAt(job, places), r) ==
            if job.pos(r).Some? && Occ(places, job.pos(r).value) == 1 then Occ(job.rows, r) else 0
  {
    if places != [] {
      forall p
        ensures Occ(places[1..], p) <= 1
      {
        assert Occ(places, p) <= 1;
      }
      RowsAtOcc(job, places[1..], r);
      OccConcat(RowsOf(job, places[0]), RowsAt(job, places[1..]), r);
      RoutedOcc(job.pos, job.rows, Some(places[0]), r);
    }
  }

  /** Every row is among the errors or at its position. */
  lemma RowPlaced(job: Job, plan: seq<Group>, r: Row)
    requires EveryPlaceOnce(job, plan)
    ensures Occ(RoutedTo(job.pos, job.rows, None), r) + Occ(RowsAt(job, AllPlaces(plan)), r) == Occ(job.rows, r)
  {
    var places := AllPlaces(plan);
    forall p
      ensures Occ(places, p) <= 1
    {
      assert Occ(places, p) == if RowsOf(job, p) != [] then 1 else 0;
    }
    RowsAtOcc(job, places, r);
    RoutedOcc(job.pos, job.rows, None, r);
    if job.pos(r).Some? {
      RoutedOcc(job.pos, job.rows, job.pos(r), r);
      assert Occ(places, job.pos(r).value) == if RowsOf(job, job.pos(r).value) != [] then 1 else 0;
    }
  }

  // ---- the state of the two loops ----

  /** The plan so far with its batches, the key each position is parked under, and the positions
      parked under each key. */
  datatype Work = Work(
    plan: seq<Group>, pieces: seq<seq<Batch>>, home: map<nat, seq<Host>>, places: map<seq<Host>, seq<nat>>)

  const NOTHING := Work([], [], map[], map[])

  /** The places of the plan are the positions that are neither still to do nor parked, once each. */
  ghost predicate Assigned(work: Work, all: set<nat>, todo: set<nat>) {
    && (forall p :: Occ(AllPlaces(work.plan), p) == if p in all && p !in todo && p !in work.home then 1 else 0)
    && (forall key, p :: Occ(Lookup(work.places, key), p) == if p in work.home && work.home[p] == key then 1 else 0)
  }

  /** The rows waiting under each replica key are those of the positions parked there. */
  ghost predicate Parked(job: Job, byReplica: map<seq<Host>, seq<Row>>, places: map<seq<Host>, seq<nat>>) {
    && byReplica.Keys == places.Keys
    && forall key :: key in byReplica ==>
         byReplica[key] == RowsAt(job, places[key]) && GroupOk(job, AtReplica(key, places[key]))
  }

  /** A position batched by itself. */
  lemma AssignPosition(work: Work, all: set<nat>, todo: set<nat>, p: nat, pieces: seq<seq<Batch>>)
    requires Assigned(work, all, todo) && p in todo && p in all && p !in work.home
    ensures Assigned(work.(plan := work.plan + [AtPosition(p)], pieces := pieces), all, todo - {p})
  {
    PlacesSnoc(work.plan, AtPosition(p));
    forall q
      ensures Occ(AllPlaces(work.plan) + [p], q) == Occ(AllPlaces(work.plan), q) + if q == p then 1 else 0
    {
      OccSnoc(AllPlaces(work.plan), p, q);
    }
  }

  function Park(work: Work, p: nat, key: seq<Host>): Work {
    work.(home := work.home[p := key], places := work.places[key := Lookup(work.places, key) + [p]])
  }

  /** A position parked under a replica key. */
  lemma AssignParked(work: Work, all: set<nat>, todo: set<nat>, p: nat, key: seq<Host>)
    requires Assigned(work, all, todo) && p in todo && p in all && p !in work.home
    ensures Assigned(Park(work, p, key), all, todo - {p})
  {
    var places, more := work.places, Park(work, p, key).places;
    forall k, q
      ensures Occ(Lookup(more, k), q) == Occ(Lookup(places, k), q) + if k == key && q == p then 1 else 0
    {
      if k == key { OccSnoc(Lookup(places, key), p, q); }
    }
  }

  /** The positions parked under one key are batched. */
  function Unpark(work: Work, key: seq<Host>, bs: seq<Batch>): Work
    requires key in work.places
  {
    Work(work.plan + [AtReplica(key, work.places[key])], work.pieces + [bs],
         map p | p in work.home && work.home[p] != key :: work.home[p], work.places - {key})
  }

  lemma AssignKey(work: Work, all: set<nat>, key: seq<Host>, bs: seq<Batch>)
    requires Assigned(work, all, {}) && key in work.places && work.home.Keys <= all
    ensures Assigned(Unpark(work, key, bs), all, {})
  {
    var places, left := work.places, Unpark(work, key, bs).home;
    PlacesSnoc(work.plan, AtReplica(key, places[key]));
    assert Lookup(places, key) == places[key];
    forall q
      ensures Occ(AllPlaces(work.plan) + places[key], q) == if q in all && q !in left then 1 else 0
    {
      OccConcat(AllPlaces(work.plan), places[key], q);
    }
    forall k
      ensures Lookup(places - {key}, k) == if k == key then [] else Lookup(places, k)
    {
    }
  }

  lemma ParkedAs(job: Job, places: map<seq<Host>, seq<nat>>, p: nat, key: seq<Host>)
    requires key in places ==> GroupOk(job, AtReplica(key, places[key]))
    requires Shares(job, key, p)
    ensures GroupOk(job, AtReplica(key, Lookup(places, key) + [p]))
    ensures RowsAt(job, Lookup(places, key) + [p]) == RowsAt(job, Lookup(places, key)) + RowsOf(job, p)
  {
    RowsAtConcat(job, Lookup(places, key), [p]);
    RowsAtOne(job, p);
    assert forall q :: q in Lookup(places, key) + [p] ==> q in Lookup(places, key) || q == p;
  }

  lemma ParkMore(job: Job, byReplica: map<seq<Host>, seq<Row>>, places: map<seq<Host>, seq<nat>>, p: nat,
      key: seq<Host>)
    requires Parked(job, byReplica, places) && Shares(job, key, p)
    ensures Parked(job, byReplica[key := Lookup(byReplica, key) + RowsOf(job, p)],
                   places[key := Lookup(places, key) + [p]])
  {
    ParkedAs(job, places, p, key);
    assert Lookup(byReplica, key) == RowsAt(job, Lookup(places, key));
  }

  /** What the first loop keeps, with the positions `todo` still to come. */
  ghost predicate Positioning(
    job: Job, all: set<nat>, todo: set<nat>, batches: seq<Batch>, byReplica: map<seq<Host>, seq<Row>>, work: Work)
  {
    && todo <= all && todo !! work.home.Keys && work.home.Keys <= all
    && Follows(job, work.plan, work.pieces, batches)
    && (forall i :: 0 <= i < |work.plan| ==> work.plan[i].AtPosition?)
    && Parked(job, byReplica, work.places) && Assigned(work, all, todo)
  }

  lemma NothingDone(job: Job, all: set<nat>)
    ensures Positioning(job, all, all, [], map[], NOTHING)
  {
  }

  lemma PositionCut(job: Job, p: nat, bs: seq<Batch>)
    requires IsPlace(job, p) && |RowsOf(job, p)| > job.min && IsCut(job.max, RowsOf(job, p), bs)
    requires forall i :: 0 <= i < |bs| ==> AllUsable(job.dc, job.ring[p].replicas, bs[i].replicas)
    ensures GroupDone(job, AtPosition(p), bs)
  {
    RowsAtOne(job, p);
  }

  lemma PositionBatched(
    job: Job, all: set<nat>, todo: set<nat>, batches: seq<Batch>, byReplica: map<seq<Host>, seq<Row>>, work: Work,
    p: nat, bs: seq<Batch>)
    requires Positioning(job, all, todo, batches, byReplica, work) && p in todo
    requires GroupDone(job, AtPosition(p), bs)
    ensures Positioning(job, all, todo - {p}, batches + bs, byReplica,
                        work.(plan := work.plan + [AtPosition(p)], pieces := work.pieces + [bs]))
  {
    FollowsMore(job, work.plan, work.pieces, batches, AtPosition(p), bs);
    AssignPosition(work, all, todo, p, work.pieces + [bs]);
  }

  lemma PositionParked(
    job: Job, all: set<nat>, todo: set<nat>, batches: seq<Batch>, byReplica: map<seq<Host>, seq<Row>>, work: Work,
    p: nat, key: seq<Host>)
    requires Positioning(job, all, todo, batches, byReplica, work) && p in todo && Shares(job, key, p)
    ensures Positioning(job, all, todo - {p}, batches,
                        byReplica[key := Lookup(byReplica, key) + RowsOf(job, p)], Park(work, p, key))
  {
    ParkMore(job, byReplica, work.places, p, key);
    AssignParked(work, all, todo, p, key);
  }

  /** What the second loop keeps. */
  ghost predicate Merging(
    job: Job, all: set<nat>, batches: seq<Batch>, byReplica: map<seq<Host>, seq<Row>>, work: Work)
  {
    && work.home.Keys <= all
    && Follows(job, work.plan, work.pieces, batches)
    && KeysDiffer(work.plan)
    && (forall i :: 0 <= i < |work.plan| && work.plan[i].AtReplica? ==> work.plan[i].key !in byReplica)
    && Parked(job, byReplica, work.places) && Assigned(work, all, {})
  }

  lemma KeyMerged(
    job: Job, all: set<nat>, batches: seq<Batch>, byReplica: map<seq<Host>, seq<Row>>, work: Work,
    key: seq<Host>, bs: seq<Batch>)
    requires Merging(job, all, batches, byReplica, work) && key in byReplica
    requires GroupDone(job, AtReplica(key, work.places[key]), bs)
    ensures Merging(job, all, batches + bs, byReplica - {key}, Unpark(work, key, bs))
  {
    FollowsMore(job, work.plan, work.pieces, batches, AtReplica(key, work.places[key]), bs);
    AssignKey(work, all, key, bs);
  }

  /** With no key left nothing is parked. */
  lemma AllMerged(job: Job, all: set<nat>, work: Work)
    requires Assigned(work, all, {}) && work.places == map[]
    requires forall p :: p in all <==> RowsOf(job, p) != []
    ensures EveryPlaceOnce(job, work.plan)
  {
    forall p
      ensures p !in work.home
    {
      assert p in work.home ==> Occ(Lookup(work.places, work.home[p]), p) == 1;
    }
  }

  // ---- the two loops ----

  /** The first loop: positions with enough rows are batched, the others wait by replica. */
  method BatchPositions(ghost job: Job, ring: seq<Entry>, dc: string, minSize: int, maxSize: nat,
      byPos: map<nat, seq<Row>>)
    returns (batches: seq<Batch>, byReplica: map<seq<Host>, seq<Row>>, ghost work: Work)
    requires job.ring == ring && job.dc == dc && job.min == minSize && job.max == maxSize >= 1
    requires forall p :: p in byPos ==> byPos[p] == RowsOf(job, p) && IsPlace(job, p)
    ensures Positioning(job, byPos.Keys, {}, batches, byReplica, work)
  {
    batches, byReplica, work := [], map[], NOTHING;
    var todo := byPos.Keys;
    NothingDone(job, todo);
    while todo != {}
      invariant Positioning(job, byPos.Keys, todo, batches, byReplica, work)
      decreases |todo|
    {
      var p: nat :| p in todo;
      if |byPos[p]| > minSize {
        var bs := CutRows(dc, maxSize, byPos[p], ring[p].replicas, true);
        PositionCut(job, p, bs);
        PositionBatched(job, byPos.Keys, todo, batches, byReplica, work, p, bs);
        work := work.(plan := work.plan + [AtPosition(p)], pieces := work.pieces + [bs]);
        batches := batches + bs;
      } else {
        var key := ReplicaKey(ring[p].replicas, dc);
        PositionParked(job, byPos.Keys, todo, batches, byReplica, work, p, key);
        work := Park(work, p, key);
        byReplica := byReplica[key := Lookup(byReplica, key) + byPos[p]];
      }
      todo := todo - {p};
    }
  }

  /** The second loop: the rows waiting for each replica are batched. */
  method BatchReplicas(ghost job: Job, dc: string, maxSize: nat, first: seq<Batch>, waiting: map<seq<Host>, seq<Row>>,
      ghost start: Work, ghost all: set<nat>)
    returns (batches: seq<Batch>, ghost work: Work)
    requires job.dc == dc && job.max == maxSize >= 1 && Merging(job, all, first, waiting, start)
    ensures Merging(job, all, batches, map[], work)
  {
    batches, work := first, start;
    var byReplica := waiting;
    while byReplica != map[]
      invariant Merging(job, all, batches, byReplica, work)
      decreases |byReplica|
    {
      var key :| key in byReplica;
      var bs := CutRows(dc, maxSize, byReplica[key], key, false);
      KeyMerged(job, all, batches, byReplica, work, key, bs);
      work := Unpark(work, key, bs);
      batches := batches + bs;
      byReplica := byReplica - {key};
    }
  }

  /** The whole generator, for any routing of rows to ring positions. The ghost results say how the
      batches come about. */
  method BatchRows(ring: seq<Entry>, pos: Router, dc: string, minSize: int, maxSize: nat, rows: seq<Row>)
    returns (errors: seq<Row>, batches: seq<Batch>, ghost plan: seq<Group>, ghost pieces: seq<seq<Batch>>)
    requires maxSize >= 1 && forall row :: pos(row).Some? ==> pos(row).value < |ring|
    ensures errors == RoutedTo(pos, rows, None)
    ensures
      var job := Job(ring, pos, dc, minSize, maxSize, rows);
      Follows(job, plan, pieces, batches) && KeysDiffer(plan) && EveryPlaceOnce(job, plan)
    ensures forall r :: Occ(errors, r) + Occ(AllRows(batches), r) == Occ(rows, r)
  {
    ghost var job, work := Job(ring, pos, dc, minSize, maxSize, rows), NOTHING;
    var byPos, byReplica;
    errors, byPos := GroupByPosition(ring, pos, rows);
    forall p: nat
      ensures p in byPos <==> RowsOf(job, p) != []
      ensures p in byPos ==> byPos[p] == RowsOf(job, p)
    {
      assert Lookup(byPos, p) == RowsOf(job, p);
    }
    batches, byReplica, work := BatchPositions(job, ring, dc, minSize, maxSize, byPos);
    batches, work := BatchReplicas(job, dc, maxSize, batches, byReplica, work, byPos.Keys);
    plan, pieces := work.plan, work.pieces;
    AllMerged(job, byPos.Keys, work);
    FollowedRows(job, plan, pieces, batches);
    forall r
      ensures Occ(errors, r) + Occ(AllRows(batches), r) == Occ(rows, r)
    {
      RowPlaced(job, plan, r);
    }
  }

  // ---- what a batch carries ----

  lemma {:induction false} RowAtPlace(job: Job, places: seq<nat>, row: Row)
    requires row in RowsAt(job, places)
    ensures job.pos(row).Some? && job.pos(row).value in places
  {
    var here := RowsOf(job, places[0]);
    if row in here {
      OccIn(here, row);
      RoutedOcc(job.pos, job.rows, Some(places[0]), row);
    } else {
      RowAtPlace(job, places[1..], row);
    }
  }

  lemma {:induction false} RowIn(bs: seq<Batch>, i: nat, row: Row)
    requires i < |bs| && row in bs[i].rows
    ensures row in AllRows(bs)
  {
    if i > 0 { RowIn(bs[1..], i - 1, row); }
  }

  lemma {:induction false} BatchSource(pieces: seq<seq<Batch>>, b: Batch) returns (j: nat, k: nat)
    requires b in Flatten(pieces)
    ensures j < |pieces| && k < |pieces[j]| && b == pieces[j][k]
  {
    if b in pieces[0] {
      j := 0;
      k :| 0 <= k < |pieces[0]| && pieces[0][k] == b;
    } else {
      var i;
      i, k := BatchSource(pieces[1..], b);
      j := i + 1;
    }
  }

  /** A batch with a row of position `p`: if the position has more than the minimum of rows, all its
      usable replicas, else one of them, or none if it has none. */
  ghost predicate Served(job: Job, b: Batch, p: nat) {
    && p < |job.ring|
    && if |RowsOf(job, p)| > job.min then AllUsable(job.dc, job.ring[p].replicas, b.replicas)
       else OneUsable(job.dc, job.ring[p].replicas, b.replicas)
  }

  lemma BatchServes(
    job: Job, plan: seq<Group>, pieces: seq<seq<Batch>>, batches: seq<Batch>, b: Batch, row: Row)
    requires Follows(job, plan, pieces, batches) && b in batches && row in b.rows
    ensures job.pos(row).Some? && Served(job, b, job.pos(row).value)
  {
    var j, k := BatchSource(pieces, b);
    assert GroupDone(job, plan[j], pieces[j]);
    RowIn(pieces[j], k, row);
    RowAtPlace(job, Places(plan[j]), row);
    assert Carries(job, plan[j], b);
  }

  lemma BatchSized(job: Job, plan: seq<Group>, pieces: seq<seq<Batch>>, batches: seq<Batch>, b: Batch)
    requires Follows(job, plan, pieces, batches) && b in batches
    ensures 1 <= |b.rows| <= job.max
  {
    var j, k := BatchSource(pieces, b);
    assert GroupDone(job, plan[j], pieces[j]);
  }

  /** Rows of different positions share a batch only if both positions have few rows. */
  lemma BatchTogether(
    job: Job, plan: seq<Group>, pieces: seq<seq<Batch>>, batches: seq<Batch>, b: Batch, row: Row, other: Row)
    requires Follows(job, plan, pieces, batches)
    requires b in batches && row in b.rows && other in b.rows && job.pos(row) != job.pos(other)
    ensures job.pos(row).Some? && |RowsOf(job, job.pos(row).value)| <= job.min
  {
    var j, k := BatchSource(pieces, b);
    assert GroupDone(job, plan[j], pieces[j]);
    RowIn(pieces[j], k, row);
    RowIn(pieces[j], k, other);
    RowAtPlace(job, Places(plan[j]), row);
    RowAtPlace(job, Places(plan[j]), other);
  }

  /** The ring position of every row, by its token. */
  function Route(ring: seq<Entry>, token: Tokenizer): Router {
    row => Position(ring, token, row)
  }

  /** split_into_batches on a token ring: no row is lost or doubled; the batches are those of a plan
      that puts every ring position with rows into exactly one group, full except perhaps the last of
      its group; and for every row of a batch, with the ring position of its token: if the chunk has
      more than minSize rows there, the batch carries every usable replica of that position as often
      as the ring does, and otherwise one usable replica of it, or none if it has none. */
  method SplitIntoBatches(ring: seq<Entry>, token: Tokenizer, dc: string, minSize: int, maxSize: nat, rows: seq<Row>)
    returns (errors: seq<Row>, batches: seq<Batch>, ghost plan: seq<Group>, ghost pieces: seq<seq<Batch>>)
    requires ring != [] && maxSize >= 1
    ensures forall i :: 0 <= i < |batches| ==> 1 <= |batches[i].rows| <= maxSize
    ensures
      var job := Job(ring, Route(ring, token), dc, minSize, maxSize, rows);
      && Follows(job, plan, pieces, batches) && KeysDiffer(plan) && EveryPlaceOnce(job, plan)
      && forall i, row :: 0 <= i < |batches| && row in batches[i].rows ==>
           token(row).Some? && Served(job, batches[i], RingPos(ring, token(row).value))
    ensures forall r :: Occ(errors, r) == if token(r).None? then Occ(rows, r) else 0
    ensures forall r :: Occ(errors, r) + Occ(AllRows(batches), r) == Occ(rows, r)
  {
    var pos := Route(ring, token);
    ghost var job := Job(ring, pos, dc, minSize, maxSize, rows);
    errors, batches, plan, pieces := BatchRows(ring, pos, dc, minSize, maxSize, rows);
    forall i, row | 0 <= i < |batches| && row in batches[i].rows
      ensures token(row).Some? && Served(job, batches[i], RingPos(ring, token(row).value))
    {
      BatchServes(job, plan, pieces, batches, batches[i], row);
    }
    forall i | 0 <= i < |batches|
      ensures 1 <= |batches[i].rows| <= maxSize
    {
      BatchSized(job, plan, pieces, batches, batches[i]);
    }
    forall r
      ensures Occ(errors, r) == if token(r).None? then Occ(rows, r) else 0
    {
      RoutedOcc(pos, rows, None, r);
    }
  }
}
