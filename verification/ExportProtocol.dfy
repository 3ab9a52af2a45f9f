/** COPY TO: the parent hands token ranges to workers, workers query them page by page, and the
    parent writes pages, counts finished ranges and retries failed ones.

    Ranges are numbered. Each worker has a first-in first-out channel in each direction. The
    environment decides when a query connects, produces a page, ends or fails; the pages of an
    attempt precede its single ending message, and formatting a page does not fail.
 */
module ExportProtocol {
  import opened Common

  type Row = int

  datatype Config = Config(workers: nat, maxAttempts: int)

  /** The parent's record of a range; -1 is "no worker yet". */
  datatype Info = Info(attempts: nat, rows: nat, workerno: int)

  /** Messages to the parent. `Finished` is the source's (None, None): the parent cannot see which
      range it is about. The attempt number is not sent either. */
  datatype Msg =
    | Page(range: nat, attempt: nat, data: seq<Row>)
    | Failed(range: nat)
    | Finished(range: nat)

  /** Bookkeeping: where a range is in its life. */
  datatype Phase = Unsent | Queued | Querying | Ending | Succeeded | GivenUp

  datatype State = State(
    info: seq<Info>, work: seq<seq<nat>>, out: seq<seq<Msg>>,
    succeeded: nat, failed: nat, written: seq<Msg>,
    phase: seq<Phase>, emitted: seq<seq<Msg>>)

  datatype Event =
    | Connect(w: nat)
    | ConnectFails(w: nat)
    | PageArrives(r: nat, data: seq<Row>)
    | LastPage(r: nat, data: seq<Row>)
    | QueryFails(r: nat)
    | Receive(w: nat)

  // ---- the steps ----

  ghost predicate Shaped(cfg: Config, s: State) {
    && cfg.workers > 0 && |s.work| == |s.out| == cfg.workers
    && |s.phase| == |s.emitted| == |s.info|
    && (forall w, i :: 0 <= w < |s.work| && 0 <= i < |s.work[w]| ==> s.work[w][i] < |s.info|)
    && (forall w, i :: 0 <= w < |s.out| && 0 <= i < |s.out[w]| ==> s.out[w][i].range < |s.info|)
    && (forall r :: 0 <= r < |s.info| && s.phase[r] != Unsent ==> 0 <= s.info[r].workerno < cfg.workers)
  }

  /** One round of send_work: hand range `r` to worker `i`. */
  function Send(s: State, r: nat, i: nat): State
    requires r < |s.info| && i < |s.work| && |s.phase| == |s.info|
  {
    s.(info := s.info[r := Info(s.info[r].attempts + 1, s.info[r].rows, i)],
       work := s.work[i := s.work[i] + [r]],
       phase := s.phase[r := Queued])
  }

  /** The worker after `prev`, as send_work starts its round robin. */
  function NextWorker(cfg: Config, prev: int): (i: nat)
    requires cfg.workers > 0
    ensures i < cfg.workers
  {
    if -1 <= prev < cfg.workers - 1 then prev + 1 else 0
  }

  function SendAll(cfg: Config, s: State, rs: seq<nat>, i: nat): (t: State)
    requires i < cfg.workers == |s.work| && |s.phase| == |s.info| && forall j :: 0 <= j < |rs| ==> rs[j] < |s.info|
    ensures |t.info| == |s.info|
    decreases |rs|
  {
    if rs == [] then s
    else SendAll(cfg, Send(s, rs[0], i), rs[1..], if i < cfg.workers - 1 then i + 1 else 0)
  }

  function SendWork(cfg: Config, s: State, rs: seq<nat>): State
    requires 0 < cfg.workers == |s.work| && |s.phase| == |s.info| && rs != [] && forall j :: 0 <= j < |rs| ==>
        rs[j] < |s.info|
  {
    SendAll(cfg, s, rs, NextWorker(cfg, s.info[rs[0]].workerno))
  }

  /** A worker message about range `r`: it goes to the channel of the worker that has the range. */
  function Emit(s: State, r: nat, msgs: seq<Msg>, phase: Phase): State
    requires r < |s.info| && r < |s.phase| && 0 <= s.info[r].workerno < |s.out|
  {
    var w := s.info[r].workerno;
    s.(out := s.out[w := s.out[w] + msgs], phase := s.phase[r := phase])
  }

  function Pages(r: nat, attempt: nat, data: seq<Row>): seq<Msg> {
    if data == [] then [] else [Page(r, attempt, data)]
  }

  /** The parent's handling of one message in export_records. */
  function Handle(cfg: Config, s: State, m: Msg): State
    requires 0 < cfg.workers == |s.work| && |s.phase| == |s.info| && m.range < |s.info|
  {
    var r := m.range;
    match m
    case Finished(_) => s.(succeeded := s.succeeded + 1, phase := s.phase[r := Succeeded])
    case Failed(_) =>
      if s.info[r].attempts < cfg.maxAttempts && s.info[r].rows == 0 then SendWork(cfg, s, [r])
      else s.(failed := s.failed + 1, phase := s.phase[r := GivenUp])
    case Page(_, _, data) =>
      s.(written := s.written + [m], info := s.info[r := s.info[r].(rows := s.info[r].rows + |data|)])
  }

  ghost predicate Enabled(cfg: Config, s: State, e: Event)
    requires Shaped(cfg, s)
  {
    match e
    case Connect(w) => w < cfg.workers && s.work[w] != []
    case ConnectFails(w) => w < cfg.workers && s.work[w] != []
    case PageArrives(r, data) => r < |s.info| && s.phase[r] == Querying
    case LastPage(r, data) => r < |s.info| && s.phase[r] == Querying
    case QueryFails(r) => r < |s.info| && s.phase[r] == Querying
    case Receive(w) => w < cfg.workers && s.out[w] != []
  }

  ghost function Apply(cfg: Config, s: State, e: Event): State
    requires Shaped(cfg, s) && Enabled(cfg, s, e)
  {
    match e
    case Connect(w) =>
      s.(work := s.work[w := s.work[w][1..]], phase := s.phase[s.work[w][0] := Querying])
    case ConnectFails(w) =>
      var r := s.work[w][0];
      s.(work := s.work[w := s.work[w][1..]], out := s.out[w := s.out[w] + [Failed(r)]], phase := s.phase[r := Ending])
    case PageArrives(r, data) => Produce(s, r, data, [], Querying)
    case LastPage(r, data) => Produce(s, r, data, [Finished(r)], Ending)
    case QueryFails(r) => Produce(s, r, [], [Failed(r)], Ending)
    case Receive(w) => Handle(cfg, s.(out := s.out[w := s.out[w][1..]]), s.out[w][0])
  }

  /** A querying worker sends a page unless it is empty, and perhaps the ending message. */
  function Produce(s: State, r: nat, data: seq<Row>, ending: seq<Msg>, phase: Phase): State
    requires r < |s.info| == |s.phase| == |s.emitted| && 0 <= s.info[r].workerno < |s.out|
  {
    var pages := Pages(r, s.info[r].attempts, data);
    Emit(s.(emitted := s.emitted[r := s.emitted[r] + pages]), r, pages + ending, phase)
  }

  function Blank(cfg: Config, n: nat): State {
    State(seq(n, _ => Info(0, 0, -1)), seq(cfg.workers, _ => []), seq(cfg.workers, _ => []), 0, 0, [],
          seq(n, _ => Unsent), seq(n, _ => []))
  }

  function AllRanges(n: nat): (rs: seq<nat>)
    ensures |rs| == n && forall i :: 0 <= i < n ==> rs[i] == i
  {
    seq(n, i => i)
  }

  /** The start of export_records: every range is sent once. */
  function Init(cfg: Config, n: nat): State
    requires cfg.workers > 0 && n > 0
  {
    SendWork(cfg, Blank(cfg, n), AllRanges(n))
  }

  // ---- projections on one range ----

  function Keep(m: Msg, r: nat): seq<Msg> {
    if m.range == r then [m] else []
  }

  /** The messages about range `r`, in order. */
  function About(ms: seq<Msg>, r: nat): seq<Msg> {
    if ms == [] then [] else Keep(ms[0], r) + About(ms[1..], r)
  }

  function Count(ws: seq<nat>, r: nat): nat {
    if ws == [] then 0 else (if ws[0] == r then 1 else 0) + Count(ws[1..], r)
  }

  function RowCount(ms: seq<Msg>): nat {
    if ms == [] then 0 else (if ms[0].Page? then |ms[0].data| else 0) + RowCount(ms[1..])
  }

  lemma {:induction false} AboutConcat(a: seq<Msg>, b: seq<Msg>, r: nat)
    ensures About(a + b, r) == About(a, r) + About(b, r)
  {
    if a == [] {
      assert a + b == b;
    } else {
      AboutConcat(a[1..], b, r);
      assert (a + b)[0] == a[0] && (a + b)[1..] == a[1..] + b;
      Regroup(Keep(a[0], r), About(a[1..], r), About(b, r));
    }
  }

  lemma {:induction false} AboutOwn(ms: seq<Msg>, q: nat, r: nat)
    requires forall i :: 0 <= i < |ms| ==> ms[i].range == q
    ensures About(ms, r) == if q == r then ms else []
  {
    if ms != [] { AboutOwn(ms[1..], q, r); }
  }

  lemma {:induction false} CountConcat(a: seq<nat>, b: seq<nat>, r: nat)
    ensures Count(a + b, r) == Count(a, r) + Count(b, r)
  {
    if a == [] {
      assert a + b == b;
    } else {
      CountConcat(a[1..], b, r);
      assert (a + b)[1..] == a[1..] + b;
    }
  }

  lemma {:induction false} RowCountConcat(a: seq<Msg>, b: seq<Msg>)
    ensures RowCount(a + b) == RowCount(a) + RowCount(b)
  {
    if a == [] {
      assert a + b == b;
    } else {
      RowCountConcat(a[1..], b);
      assert (a + b)[1..] == a[1..] + b;
    }
  }

  // ---- the invariant of one range ----

  function AttemptLimit(cfg: Config): nat {
    if cfg.maxAttempts > 1 then cfg.maxAttempts else 1
  }

  /** Pages with data, all of one attempt. */
  ghost predicate PagesOf(ms: seq<Msg>, attempt: nat) {
    forall i :: 0 <= i < |ms| ==> ms[i].Page? && ms[i].attempt == attempt && ms[i].data != []
  }

  /** The pages of range `r` still in its channel, given its phase. */
  ghost function InFlight(s: State, r: nat): seq<Msg>
    requires r < |s.info| == |s.phase| && 0 <= s.info[r].workerno < |s.out|
  {
    var ms := About(s.out[s.info[r].workerno], r);
    if s.phase[r] == Ending && ms != [] then ms[..|ms| - 1] else ms
  }

  /** A range is either waiting in its worker's queue, or being queried, or its ending message is
      under way behind its pages, or it is settled; and every page ever produced for it belongs to
      its current attempt and is written or still in flight, in order. */
  ghost predicate RangeOk(cfg: Config, s: State, r: nat)
    requires Shaped(cfg, s) && r < |s.info|
  {
    && s.phase[r] != Unsent
    && var w := s.info[r].workerno;
    && (forall v :: 0 <= v < cfg.workers && v != w ==> About(s.out[v], r) == [])
    && (forall v :: 0 <= v < cfg.workers ==> Count(s.work[v], r) == if v == w && s.phase[r] == Queued then 1 else 0)
    && 1 <= s.info[r].attempts <= AttemptLimit(cfg)
    && PagesOf(s.emitted[r], s.info[r].attempts)
    && About(s.written, r) + InFlight(s, r) == s.emitted[r]
    && RowCount(About(s.written, r)) == s.info[r].rows
    && var ms := About(s.out[w], r);
    && (s.phase[r] == Queued ==> ms == [] && s.emitted[r] == [])
    && (s.phase[r] == Ending ==> ms != [] && !ms[|ms| - 1].Page?)
    && (s.phase[r] == Succeeded || s.phase[r] == GivenUp ==> ms == [])
    && (s.phase[r] == GivenUp ==> s.info[r].attempts >= cfg.maxAttempts || s.emitted[r] != [])
  }

  function CountPhase(ps: seq<Phase>, p: Phase): nat {
    if ps == [] then 0 else (if ps[0] == p then 1 else 0) + CountPhase(ps[1..], p)
  }

  ghost predicate RangesOk(cfg: Config, s: State)
    requires Shaped(cfg, s)
  {
    forall r :: 0 <= r < |s.info| ==> RangeOk(cfg, s, r)
  }

  ghost predicate Inv(cfg: Config, s: State) {
    && Shaped(cfg, s) && RangesOk(cfg, s)
    && s.succeeded == CountPhase(s.phase, Succeeded)
    && s.failed == CountPhase(s.phase, GivenUp)
  }

  // ---- how channels change ----

  lemma PushMsgs(out: seq<seq<Msg>>, w: nat, msgs: seq<Msg>, q: nat, v: nat, r: nat)
    requires w < |out| && v < |out| && forall i :: 0 <= i < |msgs| ==> msgs[i].range == q
    ensures About(out[w := out[w] + msgs][v], r) == About(out[v], r) + if v == w && r == q then msgs else []
  {
    AboutConcat(out[w], msgs, r);
    AboutOwn(msgs, q, r);
  }

  lemma PopMsg(out: seq<seq<Msg>>, w: nat, v: nat, r: nat)
    requires w < |out| && v < |out| && out[w] != []
    ensures About(out[v], r) == (if v == w then Keep(out[w][0], r) else []) + About(out[w := out[w][1..]][v], r)
  {
  }

  lemma PushWork(work: seq<seq<nat>>, w: nat, q: nat, v: nat, r: nat)
    requires w < |work| && v < |work|
    ensures Count(work[w := work[w] + [q]][v], r) == Count(work[v], r) + if v == w && r == q then 1 else 0
  {
    CountConcat(work[w], [q], r);
    assert Count([q], r) == if r == q then 1 else 0 by { assert [q][1..] == []; }
  }

  lemma PopWork(work: seq<seq<nat>>, w: nat, v: nat, r: nat)
    requires w < |work| && v < |work| && work[w] != []
    ensures Count(work[v], r) == (if v == w && work[w][0] == r then 1 else 0) + Count(work[w := work[w][1..]][v], r)
  {
  }

  lemma {:induction false} PhaseUpdate(ps: seq<Phase>, r: nat, p: Phase, x: Phase)
    requires r < |ps|
    ensures CountPhase(ps[r := p], x) == CountPhase(ps, x) + (if p == x then 1 else 0) - (if ps[r] == x then 1 else 0)
  {
    if r == 0 {
      assert ps[0 := p][1..] == ps[1..];
    } else {
      PhaseUpdate(ps[1..], r - 1, p, x);
      assert ps[r := p][1..] == ps[1..][r - 1 := p];
    }
  }

  /** RangeOk looks only at the range's own record, queue entries and messages. */
  lemma Frame(cfg: Config, s: State, t: State, r: nat)
    requires Shaped(cfg, s) && Shaped(cfg, t) && |t.info| == |s.info| && r < |s.info| && RangeOk(cfg, s, r)
    requires t.info[r] == s.info[r] && t.phase[r] == s.phase[r] && t.emitted[r] == s.emitted[r]
    requires forall v :: 0 <= v < cfg.workers ==> About(t.out[v], r) == About(s.out[v], r)
    requires forall v :: 0 <= v < cfg.workers ==> Count(t.work[v], r) == Count(s.work[v], r)
    requires About(t.written, r) == About(s.written, r)
    ensures RangeOk(cfg, t, r)
  {
  }

  /** The range whose entry heads a queue is queued there. */
  lemma HeadQueued(cfg: Config, s: State, w: nat)
    requires Inv(cfg, s) && w < cfg.workers && s.work[w] != []
    ensures s.phase[s.work[w][0]] == Queued && s.info[s.work[w][0]].workerno == w
  {
    var r := s.work[w][0];
    assert RangeOk(cfg, s, r);
    assert Count(s.work[w], r) > 0;
  }

  lemma ConnectInv(cfg: Config, s: State, w: nat)
    requires Inv(cfg, s) && w < cfg.workers && s.work[w] != []
    ensures Inv(cfg, Apply(cfg, s, Connect(w)))
  {
    var t, q := Apply(cfg, s, Connect(w)), s.work[w][0];
    HeadQueued(cfg, s, w);
    assert Shaped(cfg, t);
    forall r | 0 <= r < |t.info|
      ensures RangeOk(cfg, t, r)
    {
      assert RangeOk(cfg, s, r);
      forall v | 0 <= v < cfg.workers ensures Count(t.work[v], r) == Count(s.work[v], r) - if v == w && r == q then 1
          else 0 {
        PopWork(s.work, w, v, r);
      }
      if r != q { Frame(cfg, s, t, r); }
    }
    PhaseUpdate(s.phase, q, Querying, Succeeded);
    PhaseUpdate(s.phase, q, Querying, GivenUp);
  }

  /** What a querying worker changes about its range. */
  lemma ProduceEffect(cfg: Config, s: State, q: nat, data: seq<Row>, ending: seq<Msg>, phase: Phase)
    requires Shaped(cfg, s) && q < |s.info| && s.phase[q] == Querying && RangeOk(cfg, s, q)
    requires forall i :: 0 <= i < |ending| ==> ending[i].range == q
    ensures
      var t, w := Produce(s, q, data, ending, phase), s.info[q].workerno;
      var pages := Pages(q, s.info[q].attempts, data);
      && t.info == s.info && t.work == s.work && t.written == s.written && t.phase[q] == phase
      && t.emitted[q] == s.emitted[q] + pages && PagesOf(t.emitted[q], s.info[q].attempts)
      && About(t.out[w], q) == About(s.out[w], q) + (pages + ending)
      && forall v :: 0 <= v < cfg.workers && v != w ==> t.out[v] == s.out[v]
  {
    PushMsgs(s.out, s.info[q].workerno, Pages(q, s.info[q].attempts, data) + ending, q, s.info[q].workerno, q);
  }

  lemma ProduceOwn(cfg: Config, s: State, q: nat, data: seq<Row>, ending: seq<Msg>, phase: Phase)
    requires Shaped(cfg, s) && q < |s.info| && s.phase[q] == Querying && RangeOk(cfg, s, q)
    requires (phase == Querying && ending == [])
        || (phase == Ending && |ending| == 1 && !ending[0].Page? && ending[0].range == q)
    requires Shaped(cfg, Produce(s, q, data, ending, phase))
    ensures RangeOk(cfg, Produce(s, q, data, ending, phase), q)
  {
    var t, w := Produce(s, q, data, ending, phase), s.info[q].workerno;
    var pages, ms := Pages(q, s.info[q].attempts, data), About(s.out[w], q);
    ProduceEffect(cfg, s, q, data, ending, phase);
    ProduceInFlight(ms, pages, ending);
    assert InFlight(t, q) == ms + pages;
    Regroup(About(s.written, q), ms, pages);
  }

  lemma ProduceInFlight(ms: seq<Msg>, pages: seq<Msg>, ending: seq<Msg>)
    ensures |ending| == 1 ==> (ms + (pages + ending))[..|ms| + |pages|] == ms + pages
    ensures ending == [] ==> ms + (pages + ending) == ms + pages
  {
  }

  lemma ProduceOther(cfg: Config, s: State, q: nat, data: seq<Row>, ending: seq<Msg>, phase: Phase, r: nat)
    requires Shaped(cfg, s) && q < |s.info| && s.phase[q] == Querying && r < |s.info| && r != q && RangeOk(cfg, s, r)
    requires forall i :: 0 <= i < |ending| ==> ending[i].range == q
    requires Shaped(cfg, Produce(s, q, data, ending, phase))
    ensures RangeOk(cfg, Produce(s, q, data, ending, phase), r)
  {
    var t, pages := Produce(s, q, data, ending, phase), Pages(q, s.info[q].attempts, data);
    forall v | 0 <= v < cfg.workers
      ensures About(t.out[v], r) == About(s.out[v], r)
    {
      PushMsgs(s.out, s.info[q].workerno, pages + ending, q, v, r);
    }
    Frame(cfg, s, t, r);
  }

  lemma ProduceInv(cfg: Config, s: State, q: nat, data: seq<Row>, ending: seq<Msg>, phase: Phase)
    requires Inv(cfg, s) && q < |s.info| && s.phase[q] == Querying
    requires (phase == Querying && ending == [])
        || (phase == Ending && |ending| == 1 && !ending[0].Page? && ending[0].range == q)
    ensures Inv(cfg, Produce(s, q, data, ending, phase))
  {
    var t := Produce(s, q, data, ending, phase);
    ProduceShaped(cfg, s, q, data, ending, phase);
    forall r | 0 <= r < |t.info|
      ensures RangeOk(cfg, t, r)
    {
      if r != q { ProduceOther(cfg, s, q, data, ending, phase, r); }
          else { ProduceOwn(cfg, s, q, data, ending, phase); }
    }
    PhaseUpdate(s.phase, q, phase, Succeeded);
    PhaseUpdate(s.phase, q, phase, GivenUp);
  }

  lemma ProduceShaped(cfg: Config, s: State, q: nat, data: seq<Row>, ending: seq<Msg>, phase: Phase)
    requires Shaped(cfg, s) && q < |s.info| && s.phase[q] == Querying
    requires forall i :: 0 <= i < |ending| ==> ending[i].range == q
    ensures Shaped(cfg, Produce(s, q, data, ending, phase))
  {
  }

  /** A connection failure is a query that fails at once. */
  lemma ConnectFailsInv(cfg: Config, s: State, w: nat)
    requires Inv(cfg, s) && w < cfg.workers && s.work[w] != []
    ensures Inv(cfg, Apply(cfg, s, ConnectFails(w)))
  {
    var q, mid := s.work[w][0], Apply(cfg, s, Connect(w));
    HeadQueued(cfg, s, w);
    ConnectInv(cfg, s, w);
    ProduceInv(cfg, mid, q, [], [Failed(q)], Ending);
    var t := Produce(mid, q, [], [Failed(q)], Ending);
    assert [] + [Failed(q)] == [Failed(q)];
    assert mid.emitted[q] + [] == mid.emitted[q];
    assert t.emitted == s.emitted;
    assert t.phase == s.phase[q := Ending];
    assert t == Apply(cfg, s, ConnectFails(w));
  }

  // ---- the parent receives ----

  /** The message at the head of a channel is from the worker that has the range. */
  lemma HeadOwner(cfg: Config, s: State, w: nat)
    requires Inv(cfg, s) && w < cfg.workers && s.out[w] != []
    ensures
      var m := s.out[w][0];
      && s.info[m.range].workerno == w
      && (s.phase[m.range] == Querying || s.phase[m.range] == Ending)
      && About(s.out[w], m.range) == [m] + About(s.out[w][1..], m.range)
      && (m.Page? <==> InFlight(s, m.range) != [])
      && (!m.Page? ==> s.phase[m.range] == Ending && About(s.out[w], m.range) == [m])
  {
    var m := s.out[w][0];
    var r := m.range;
    assert RangeOk(cfg, s, r);
    assert About(s.out[w], r)[0] == m;
    var ms, shown := About(s.out[w], r), About(s.written, r);
    assert InFlight(s, r) != [] ==> InFlight(s, r)[0] == ms[0];
    assert InFlight(s, r) != [] ==> s.emitted[r][|shown|] == ms[0];
  }

  /** The parent's state after it has written the page at the head of channel `w`. */
  function PageWritten(s: State, w: nat): State
    requires w < |s.out| && s.out[w] != [] && s.out[w][0].Page? && s.out[w][0].range < |s.info|
  {
    var m := s.out[w][0];
    var q := m.range;
    s.(out := s.out[w := s.out[w][1..]], written := s.written + [m],
       info := s.info[q := s.info[q].(rows := s.info[q].rows + |m.data|)])
  }

  lemma PageOwn(cfg: Config, s: State, w: nat)
    requires Inv(cfg, s) && w < cfg.workers && s.out[w] != [] && s.out[w][0].Page?
    requires Shaped(cfg, PageWritten(s, w))
    ensures RangeOk(cfg, PageWritten(s, w), s.out[w][0].range)
  {
    var t, m := PageWritten(s, w), s.out[w][0];
    var q := m.range;
    HeadOwner(cfg, s, w);
    assert RangeOk(cfg, s, q);
    PopMsg(s.out, w, w, q);
    AboutConcat(s.written, [m], q);
    AboutOwn([m], q, q);
    RowCountConcat(About(s.written, q), [m]);
    assert RowCount([m]) == |m.data| by { assert [m][1..] == []; }
    assert InFlight(s, q) == [m] + InFlight(t, q);
    Regroup(About(s.written, q), [m], InFlight(t, q));
    assert forall v :: 0 <= v < cfg.workers && v != w ==> t.out[v] == s.out[v];
  }

  lemma PageOther(cfg: Config, s: State, w: nat, r: nat)
    requires Shaped(cfg, s) && w < cfg.workers && s.out[w] != [] && s.out[w][0].Page?
    requires r < |s.info| && r != s.out[w][0].range && RangeOk(cfg, s, r)
    requires Shaped(cfg, PageWritten(s, w))
    ensures RangeOk(cfg, PageWritten(s, w), r)
  {
    var t, m := PageWritten(s, w), s.out[w][0];
    forall v | 0 <= v < cfg.workers
      ensures About(t.out[v], r) == About(s.out[v], r)
    {
      PopMsg(s.out, w, v, r);
    }
    AboutConcat(s.written, [m], r);
    AboutOwn([m], m.range, r);
    Frame(cfg, s, t, r);
  }

  lemma ReceivePage(cfg: Config, s: State, w: nat)
    requires Inv(cfg, s) && w < cfg.workers && s.out[w] != [] && s.out[w][0].Page?
    ensures Inv(cfg, Apply(cfg, s, Receive(w)))
  {
    var t := PageWritten(s, w);
    assert Apply(cfg, s, Receive(w)) == t;
    assert Shaped(cfg, t);
    forall r | 0 <= r < |t.info|
      ensures RangeOk(cfg, t, r)
    {
      if r != s.out[w][0].range { PageOther(cfg, s, w, r); } else { PageOwn(cfg, s, w); }
    }
  }

  lemma ReceiveFinished(cfg: Config, s: State, w: nat)
    requires Inv(cfg, s) && w < cfg.workers && s.out[w] != [] && s.out[w][0].Finished?
    ensures Inv(cfg, Apply(cfg, s, Receive(w)))
  {
    var q := s.out[w][0].range;
    HeadOwner(cfg, s, w);
    SettleInv(cfg, s, Apply(cfg, s, Receive(w)), w, Succeeded);
    PhaseUpdate(s.phase, q, Succeeded, Succeeded);
    PhaseUpdate(s.phase, q, Succeeded, GivenUp);
  }

  /** Taking an ending message off its channel and settling its range. */
  lemma SettleInv(cfg: Config, s: State, t: State, w: nat, phase: Phase)
    requires Inv(cfg, s) && w < cfg.workers && s.out[w] != [] && !s.out[w][0].Page?
    requires phase == Succeeded || phase == GivenUp
    requires t.out == s.out[w := s.out[w][1..]] && t.phase == s.phase[s.out[w][0].range := phase]
    requires phase == GivenUp ==>
        s.info[s.out[w][0].range].attempts >= cfg.maxAttempts || s.emitted[s.out[w][0].range] != []
    requires t.info == s.info && t.work == s.work && t.written == s.written && t.emitted == s.emitted
    ensures Shaped(cfg, t) && RangesOk(cfg, t)
  {
    var m := s.out[w][0];
    var q := m.range;
    HeadOwner(cfg, s, w);
    assert Shaped(cfg, t);
    forall r | 0 <= r < |t.info|
      ensures RangeOk(cfg, t, r)
    {
      assert RangeOk(cfg, s, r);
      forall v | 0 <= v < cfg.workers ensures About(s.out[v], r) ==
          (if v == w then Keep(m, r) else []) + About(t.out[v], r) {
        PopMsg(s.out, w, v, r);
      }
      if r != q {
        Frame(cfg, s, t, r);
      } else {
        assert About(t.out[w], q) == [];
      }
    }
  }

  lemma ReceiveFailed(cfg: Config, s: State, w: nat)
    requires Inv(cfg, s) && w < cfg.workers && s.out[w] != [] && s.out[w][0].Failed?
    ensures Inv(cfg, Apply(cfg, s, Receive(w)))
  {
    var q := s.out[w][0].range;
    HeadOwner(cfg, s, w);
    if s.info[q].attempts < cfg.maxAttempts && s.info[q].rows == 0 {
      Resend(cfg, s, w);
    } else {
      assert RangeOk(cfg, s, q);
      assert s.info[q].rows != 0 ==> About(s.written, q) != [];
      SettleInv(cfg, s, Apply(cfg, s, Receive(w)), w, GivenUp);
      PhaseUpdate(s.phase, q, GivenUp, Succeeded);
      PhaseUpdate(s.phase, q, GivenUp, GivenUp);
    }
  }

  lemma {:induction false} NoRowsNoPages(ms: seq<Msg>, attempt: nat)
    requires PagesOf(ms, attempt) && RowCount(ms) == 0
    ensures ms == []
  {
  }

  lemma WrittenPages(all: seq<Msg>, a: seq<Msg>, b: seq<Msg>, attempt: nat)
    requires all == a + b && PagesOf(all, attempt)
    ensures PagesOf(a, attempt) && PagesOf(b, attempt)
  {
    assert forall i :: 0 <= i < |a| ==> a[i] == all[i];
    assert forall i :: 0 <= i < |b| ==> b[i] == all[|a| + i];
  }

  /** A range is sent again only when nothing was ever produced for it. */
  lemma Resend(cfg: Config, s: State, w: nat)
    requires Inv(cfg, s) && w < cfg.workers && s.out[w] != [] && s.out[w][0].Failed?
    requires s.info[s.out[w][0].range].attempts < cfg.maxAttempts && s.info[s.out[w][0].range].rows == 0
    ensures Inv(cfg, Apply(cfg, s, Receive(w)))
  {
    var m := s.out[w][0];
    var q := m.range;
    var popped := s.(out := s.out[w := s.out[w][1..]]);
    var i := NextWorker(cfg, s.info[q].workerno);
    var t := Send(popped, q, i);
    HeadOwner(cfg, s, w);
    assert Apply(cfg, s, Receive(w)) == t by {
      assert [q][1..] == [];
      assert Handle(cfg, popped, m) == SendAll(cfg, popped, [q], i);
    }
    assert RangeOk(cfg, s, q);
    WrittenPages(s.emitted[q], About(s.written, q), InFlight(s, q), s.info[q].attempts);
    NoRowsNoPages(About(s.written, q), s.info[q].attempts);
    assert Shaped(cfg, t);
    forall r | 0 <= r < |t.info|
      ensures RangeOk(cfg, t, r)
    {
      if r != q { ResendOther(cfg, s, w, q, i, r); } else { ResendOwn(cfg, s, w, q, i); }
    }
    PhaseUpdate(s.phase, q, Queued, Succeeded);
    PhaseUpdate(s.phase, q, Queued, GivenUp);
  }

  lemma ResendOther(cfg: Config, s: State, w: nat, q: nat, i: nat, r: nat)
    requires Shaped(cfg, s) && w < cfg.workers && s.out[w] != [] && s.out[w][0].range == q && i < cfg.workers
    requires Shaped(cfg, Send(s.(out := s.out[w := s.out[w][1..]]), q, i))
    requires r < |s.info| && r != q && RangeOk(cfg, s, r)
    ensures RangeOk(cfg, Send(s.(out := s.out[w := s.out[w][1..]]), q, i), r)
  {
    var t := Send(s.(out := s.out[w := s.out[w][1..]]), q, i);
    forall v | 0 <= v < cfg.workers
      ensures About(t.out[v], r) == About(s.out[v], r)
    {
      PopMsg(s.out, w, v, r);
    }
    forall v | 0 <= v < cfg.workers
      ensures Count(t.work[v], r) == Count(s.work[v], r)
    {
      PushWork(s.work, i, q, v, r);
    }
    Frame(cfg, s, t, r);
  }

  lemma ResendOwn(cfg: Config, s: State, w: nat, q: nat, i: nat)
    requires Shaped(cfg, s) && w < cfg.workers && s.out[w] != [] && s.out[w][0].range == q && i < cfg.workers
    requires Shaped(cfg, Send(s.(out := s.out[w := s.out[w][1..]]), q, i)) && RangeOk(cfg, s, q)
    requires s.info[q].workerno == w && s.phase[q] == Ending && About(s.out[w], q) == [s.out[w][0]]
    requires s.info[q].attempts < cfg.maxAttempts && s.emitted[q] == []
    ensures RangeOk(cfg, Send(s.(out := s.out[w := s.out[w][1..]]), q, i), q)
  {
    var t := Send(s.(out := s.out[w := s.out[w][1..]]), q, i);
    forall v | 0 <= v < cfg.workers
      ensures About(t.out[v], q) == []
    {
      PopMsg(s.out, w, v, q);
    }
    forall v | 0 <= v < cfg.workers ensures Count(t.work[v], q) == if v == i then 1
        else 0 { PushWork(s.work, i, q, v, q); }
    NewAttempt(cfg, s, t, q);
  }

  /** A range with nothing produced, put back into a queue. */
  lemma NewAttempt(cfg: Config, s: State, t: State, r: nat)
    requires Shaped(cfg, s) && Shaped(cfg, t) && |t.info| == |s.info| && r < |s.info| && RangeOk(cfg, s, r)
    requires t.phase[r] == Queued && t.emitted[r] == s.emitted[r] == [] && t.written == s.written
    requires t.info[r].rows == s.info[r].rows && t.info[r].attempts == s.info[r].attempts + 1 <= AttemptLimit(cfg)
    requires forall v :: 0 <= v < cfg.workers ==> About(t.out[v], r) == []
    requires forall v :: 0 <= v < cfg.workers ==> Count(t.work[v], r) == if v == t.info[r].workerno then 1 else 0
    ensures RangeOk(cfg, t, r)
  {
  }

  /** Every step keeps the invariant. */
  lemma StepInv(cfg: Config, s: State, e: Event)
    requires Inv(cfg, s) && Enabled(cfg, s, e)
    ensures Inv(cfg, Apply(cfg, s, e))
  {
    match e
    case Connect(w) => ConnectInv(cfg, s, w);
    case ConnectFails(w) => ConnectFailsInv(cfg, s, w);
    case PageArrives(r, data) => ProduceInv(cfg, s, r, data, [], Querying);
    case LastPage(r, data) => ProduceInv(cfg, s, r, data, [Finished(r)], Ending);
    case QueryFails(r) => ProduceInv(cfg, s, r, [], [Failed(r)], Ending);
    case Receive(w) =>
      if s.out[w][0].Page? {
        ReceivePage(cfg, s, w);
      } else if s.out[w][0].Finished? {
        ReceiveFinished(cfg, s, w);
      } else {
        ReceiveFailed(cfg, s, w);
      }
  }

  // ---- runs ----

  /** While the first `j` ranges have been sent and nothing else has happened. */
  ghost predicate Starting(cfg: Config, s: State, j: nat) {
    && Shaped(cfg, s) && j <= |s.info|
    && (forall r :: 0 <= r < j ==> s.phase[r] == Queued && RangeOk(cfg, s, r))
    && (forall r :: j <= r < |s.info| ==>
        s.phase[r] == Unsent && s.info[r].attempts == s.info[r].rows == 0 && s.emitted[r] == [])
    && (forall r, v :: j <= r < |s.info| && 0 <= v < cfg.workers ==> Count(s.work[v], r) == 0)
    && s.written == [] && (forall v :: 0 <= v < cfg.workers ==> s.out[v] == [])
    && s.succeeded == s.failed == 0
  }

  lemma FirstSend(cfg: Config, s: State, j: nat, i: nat)
    requires Starting(cfg, s, j) && j < |s.info| && i < cfg.workers
    ensures Starting(cfg, Send(s, j, i), j + 1)
  {
    var t := Send(s, j, i);
    forall r, v | 0 <= r < |s.info| && 0 <= v < cfg.workers
      ensures Count(t.work[v], r) == Count(s.work[v], r) + if v == i && r == j then 1 else 0
    {
      PushWork(s.work, i, j, v, r);
    }
    assert Shaped(cfg, t);
    forall r | 0 <= r < j + 1
      ensures RangeOk(cfg, t, r)
    {
      if r < j { Frame(cfg, s, t, r); }
    }
  }

  lemma {:induction false} NoneSettled(ps: seq<Phase>, x: Phase)
    requires x != Queued && forall r :: 0 <= r < |ps| ==> ps[r] == Queued
    ensures CountPhase(ps, x) == 0
  {
    if ps != [] { NoneSettled(ps[1..], x); }
  }

  lemma {:induction false} SendAllInv(cfg: Config, s: State, j: nat, i: nat)
    requires Starting(cfg, s, j) && i < cfg.workers
    ensures
      var t := SendAll(cfg, s, AllRanges(|s.info|)[j..], i);
      Inv(cfg, t) && |t.info| == |s.info|
    decreases |s.info| - j
  {
    var rs := AllRanges(|s.info|)[j..];
    if j == |s.info| {
      NoneSettled(s.phase, Succeeded);
      NoneSettled(s.phase, GivenUp);
    } else {
      assert rs[0] == j && rs[1..] == AllRanges(|s.info|)[j + 1..];
      FirstSend(cfg, s, j, i);
      SendAllInv(cfg, Send(s, j, i), j + 1, if i < cfg.workers - 1 then i + 1 else 0);
    }
  }

  lemma InitInv(cfg: Config, n: nat)
    requires cfg.workers > 0 && n > 0
    ensures Inv(cfg, Init(cfg, n)) && |Init(cfg, n).info| == n
  {
    var rs := AllRanges(n);
    assert rs[0..] == rs;
    SendAllInv(cfg, Blank(cfg, n), 0, NextWorker(cfg, -1));
  }

  ghost predicate Possible(cfg: Config, s: State, es: seq<Event>)
    decreases |es|
  {
    es == [] || (Shaped(cfg, s) && Enabled(cfg, s, es[0]) && Possible(cfg, Apply(cfg, s, es[0]), es[1..]))
  }

  ghost function After(cfg: Config, s: State, es: seq<Event>): State
    requires Possible(cfg, s, es)
    decreases |es|
  {
    if es == [] then s else After(cfg, Apply(cfg, s, es[0]), es[1..])
  }

  lemma {:induction false} RunInv(cfg: Config, s: State, es: seq<Event>)
    requires Inv(cfg, s) && Possible(cfg, s, es)
    ensures Inv(cfg, After(cfg, s, es)) && |After(cfg, s, es).info| == |s.info|
    decreases |es|
  {
    if es != [] {
      StepInv(cfg, s, es[0]);
      StepKeepsRanges(cfg, s, es[0]);
      RunInv(cfg, Apply(cfg, s, es[0]), es[1..]);
    }
  }

  lemma StepKeepsRanges(cfg: Config, s: State, e: Event)
    requires Inv(cfg, s) && Enabled(cfg, s, e)
    ensures |Apply(cfg, s, e).info| == |s.info|
  {
  }

  /** Ranges the parent has not settled yet. */
  function Outstanding(ps: seq<Phase>): nat {
    if ps == [] then 0 else (if ps[0] == Succeeded || ps[0] == GivenUp then 0 else 1) + Outstanding(ps[1..])
  }

  lemma {:induction false} PhasesPartition(ps: seq<Phase>)
    ensures CountPhase(ps, Succeeded) + CountPhase(ps, GivenUp) + Outstanding(ps) == |ps|
    ensures Outstanding(ps) == 0 ==> forall r :: 0 <= r < |ps| ==> ps[r] == Succeeded || ps[r] == GivenUp
  {
    if ps != [] {
      PhasesPartition(ps[1..]);
      if Outstanding(ps) == 0 {
        forall r | 0 <= r < |ps|
          ensures ps[r] == Succeeded || ps[r] == GivenUp
        {
          if r > 0 { assert ps[r] == ps[1..][r - 1]; }
        }
      }
    }
  }

  /** In every run: succeeded, failed and outstanding ranges make up all ranges; no range is sent
      more often than allowed; and every page ever produced for a range belongs to one attempt, and
      is written or still on its way, in the order produced. */
  lemma ExportAccounting(cfg: Config, n: nat, es: seq<Event>)
    requires cfg.workers > 0 && n > 0 && Possible(cfg, Init(cfg, n), es)
    ensures
      var s := After(cfg, Init(cfg, n), es);
      && s.succeeded + s.failed + Outstanding(s.phase) == n == |s.info| == |s.phase| == |s.emitted|
      && forall r :: 0 <= r < n ==>
           && 1 <= s.info[r].attempts <= AttemptLimit(cfg)
           && (forall i :: 0 <= i < |s.emitted[r]| ==>
               s.emitted[r][i].Page? && s.emitted[r][i].attempt == s.info[r].attempts)
           && About(s.written, r) <= s.emitted[r]
           && RowCount(About(s.written, r)) == s.info[r].rows
  {
    InitInv(cfg, n);
    RunInv(cfg, Init(cfg, n), es);
    var s := After(cfg, Init(cfg, n), es);
    PhasesPartition(s.phase);
    forall r | 0 <= r < n
      ensures 1 <= s.info[r].attempts <= AttemptLimit(cfg)
      ensures forall i :: 0 <= i < |s.emitted[r]| ==>
          s.emitted[r][i].Page? && s.emitted[r][i].attempt == s.info[r].attempts
      ensures About(s.written, r) <= s.emitted[r] && RowCount(About(s.written, r)) == s.info[r].rows
    {
      assert RangeOk(cfg, s, r);
    }
  }

  /** When the parent loop ends by its own count, nothing is in flight: for every range, succeeded
      or given up, all that its single productive attempt produced has been written, in order. */
  lemma ExportComplete(cfg: Config, n: nat, es: seq<Event>)
    requires cfg.workers > 0 && n > 0 && Possible(cfg, Init(cfg, n), es)
    requires After(cfg, Init(cfg, n), es).succeeded + After(cfg, Init(cfg, n), es).failed >= n
    ensures
      var s := After(cfg, Init(cfg, n), es);
      && |s.info| == |s.phase| == |s.emitted| == n
      && forall r :: 0 <= r < n ==>
           && (s.phase[r] == Succeeded || s.phase[r] == GivenUp)
           && About(s.written, r) == s.emitted[r]
           && (s.phase[r] == GivenUp ==> s.info[r].attempts >= cfg.maxAttempts || s.emitted[r] != [])
  {
    InitInv(cfg, n);
    RunInv(cfg, Init(cfg, n), es);
    var s := After(cfg, Init(cfg, n), es);
    PhasesPartition(s.phase);
    forall r | 0 <= r < n
      ensures About(s.written, r) == s.emitted[r]
      ensures s.phase[r] == GivenUp ==> s.info[r].attempts >= cfg.maxAttempts || s.emitted[r] != []
    {
      assert RangeOk(cfg, s, r);
    }
  }

  // ---- the parent as an object ----

  class ExportTask {
    const cfg: Config
    var info: seq<Info>
    var channels: seq<seq<nat>>
    var succeeded: nat
    var failed: nat
    var written: seq<Msg>

    constructor (cfg: Config, n: nat)
      ensures this.cfg == cfg && Stands(Blank(cfg, n))
    {
      this.cfg, succeeded, failed, written := cfg, 0, 0, [];
      info, channels := seq(n, _ => Info(0, 0, -1)), seq(cfg.workers, _ => []);
    }

    /** The fields hold the parent's part of the state `s`. */
    ghost predicate Stands(s: State)
      reads this
    {
      info == s.info && channels == s.work && succeeded == s.succeeded && failed == s.failed && written == s.written
    }

    method SendRanges(ranges: seq<nat>, ghost s: State)
      requires Stands(s) && 0 < cfg.workers == |channels| && |s.phase| == |info|
      requires ranges != [] && forall j :: 0 <= j < |ranges| ==> ranges[j] < |info|
      modifies this`info, this`channels
      ensures Stands(SendWork(cfg, s, ranges))
    {
      var prev := info[ranges[0]].workerno;
      var i := if -1 <= prev < cfg.workers - 1 then prev + 1 else 0;
      ghost var t := s;
      for j := 0 to |ranges|
        invariant 0 <= i < cfg.workers == |channels| && |t.phase| == |info| == |s.info| && Stands(t)
        invariant SendWork(cfg, s, ranges) == SendAll(cfg, t, ranges[j..], i)
      {
        var r := ranges[j];
        assert ranges[j..][0] == r && ranges[j..][1..] == ranges[j + 1..];
        t := Send(t, r, i);
        channels := channels[i := channels[i] + [r]];
        info := info[r := Info(info[r].attempts + 1, info[r].rows, i)];
        i := if i < cfg.workers - 1 then i + 1 else 0;
      }
    }

    method HandleMessage(m: Msg, ghost s: State)
      requires Stands(s) && 0 < cfg.workers == |channels| && |s.phase| == |info| && m.range < |info|
      modifies this
      ensures Stands(Handle(cfg, s, m))
    {
      match m
      case Finished(_) => succeeded := succeeded + 1;
      case Failed(r) =>
        if info[r].attempts < cfg.maxAttempts && info[r].rows == 0 {
          SendRanges([r], s);
        } else {
          failed := failed + 1;
        }
      case Page(r, _, data) =>
        written := written + [m];
        info := info[r := info[r].(rows := info[r].rows + |data|)];
    }
  }
}
