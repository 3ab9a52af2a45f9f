/** What becomes of every row of COPY FROM, told from the events of a run alone. */
module ImportFates {
  import opened Common
  import opened ImportProtocol
  import opened ImportSystem

  // ---- what one event does ----

  /** A batch with a future in flight: its rows, and how many futures were made for it. */
  datatype Flight = Flight(rows: Rows, futures: nat)

  function Flights(bs: seq<Batch>): (fs: seq<Flight>)
    ensures |fs| == |bs|
  {
    seq(|bs|, i requires 0 <= i < |bs| => Flight(bs[i].rows, bs[i].submissions))
  }

  /** A failed batch is tried again: it has attempts left and its statement can be made. */
  predicate TriedAgain(cfg: Config, f: Flight, canMake: bool) {
    f.futures < cfg.maxAttempts && canMake
  }

  /** The rows of chunk `k` that the event gives up: rows reported while dispatching, and the rows of
      a failed batch that is not tried again. */
  ghost function GivenUpBy(cfg: Config, s: State, e: Event, k: nat): Rows
    requires Shaped(cfg, s) && Enabled(cfg, s, e)
  {
    match e
    case ReportRows(w, rows, _) => if s.current[w] == Some(k) then rows else multiset{}
    case BatchFails(j, b, _, _, canMake) =>
      var f := Flights(s.chunks[j].batches)[b];
      if j == k && !TriedAgain(cfg, f, canMake) then f.rows else multiset{}
    case _ => multiset{}
  }

  /** The rows of chunk `k` that the event inserts. */
  ghost function InsertedBy(cfg: Config, s: State, e: Event, k: nat): Rows
    requires Shaped(cfg, s) && Enabled(cfg, s, e)
  {
    match e
    case BatchSucceeds(j, b) => if j == k then s.chunks[j].batches[b].rows else multiset{}
    case _ => multiset{}
  }

  /** The futures of chunk `k` after the event: one more for a batch submitted, one less for a batch
      settled, and another one for a batch tried again. */
  ghost function FlightsAfter(cfg: Config, s: State, e: Event, k: nat): seq<Flight>
    requires Shaped(cfg, s) && Enabled(cfg, s, e) && k < |s.chunks|
  {
    var fs := Flights(s.chunks[k].batches);
    match e
    case SubmitBatch(w, rows) => if s.current[w] == Some(k) then fs + [Flight(rows, 1)] else fs
    case BatchSucceeds(j, b) => if j == k then fs[..b] + fs[b + 1..] else fs
    case BatchFails(j, b, _, _, canMake) =>
      if j != k then fs
      else if TriedAgain(cfg, fs[b], canMake) then fs[b := Flight(fs[b].rows, fs[b].futures + 1)]
      else fs[..b] + fs[b + 1..]
    case _ => fs
  }

  /** Chunk `d` is what the event makes of chunk `k`. */
  ghost predicate Fated(cfg: Config, s: State, e: Event, k: nat, d: Chunk)
    requires Shaped(cfg, s) && Enabled(cfg, s, e) && k < |s.chunks|
  {
    && d.ok == s.chunks[k].ok + InsertedBy(cfg, s, e, k)
    && d.failed == s.chunks[k].failed + GivenUpBy(cfg, s, e, k)
    && Flights(d.batches) == FlightsAfter(cfg, s, e, k)
  }

  lemma NoMore(x: Rows)
    ensures x + multiset{} == x
  {
  }

  lemma FlightsWithout(bs: seq<Batch>, b: nat)
    requires b < |bs|
    ensures Flights(bs[..b] + bs[b + 1..]) == Flights(bs)[..b] + Flights(bs)[b + 1..]
  {
  }

  lemma SuccessFated(cfg: Config, s: State, k: nat, b: nat)
    requires Inv(cfg, s) && Enabled(cfg, s, BatchSucceeds(k, b))
    ensures Fated(cfg, s, BatchSucceeds(k, b), k, OnSuccess(k, s.chunks[k], b).chunk)
  {
    FlightsWithout(s.chunks[k].batches, b);
    NoMore(s.chunks[k].failed);
  }

  /** A failed batch with attempts left whose statement can be made. */
  lemma RetryFated(cfg: Config, k: nat, c: Chunk, b: nat, timedOut: bool, parse: bool)
    requires b < |c.batches| && c.imported < |c.rows| && c.batches[b].attempts < cfg.maxAttempts
    ensures
      var d, f := OnFailure(cfg, k, c, b, timedOut, parse, true).chunk, Flights(c.batches)[b];
      && d.ok == c.ok && d.failed == c.failed
      && Flights(d.batches) == Flights(c.batches)[b := Flight(f.rows, f.futures + 1)]
  {
  }

  /** A failed batch without. */
  lemma LossFated(cfg: Config, k: nat, c: Chunk, b: nat, timedOut: bool, parse: bool, canMake: bool)
    requires b < |c.batches| && c.imported < |c.rows|
    requires c.batches[b].attempts >= cfg.maxAttempts || !canMake
    ensures
      var d := OnFailure(cfg, k, c, b, timedOut, parse, canMake).chunk;
      && d.ok == c.ok && d.failed == c.failed + c.batches[b].rows
      && Flights(d.batches) == Flights(c.batches)[..b] + Flights(c.batches)[b + 1..]
  {
    FlightsWithout(c.batches, b);
  }

  /** A chunk with a batch in flight is not complete, and every future of the batch was an attempt. */
  lemma Waiting(cfg: Config, s: State, k: nat, b: nat)
    requires Inv(cfg, s) && k < |s.chunks| && b < |s.chunks[k].batches|
    ensures var c := s.chunks[k];
      && c.imported < |c.rows|
      && 1 <= c.batches[b].attempts == c.batches[b].submissions <= AttemptLimit(cfg)
  {
    assert ChunkOk(cfg, s.chunks[k]) && BatchOk(cfg, s.chunks[k].batches[b]);
    WithoutBatchRows(cfg, s.chunks[k], b);
  }

  lemma FailureFated(cfg: Config, s: State, e: Event)
    requires Inv(cfg, s) && Enabled(cfg, s, e) && e.BatchFails?
    ensures Fated(cfg, s, e, e.k, OnFailure(cfg, e.k, s.chunks[e.k], e.b, e.timedOut, e.parse, e.canMake).chunk)
  {
    var c, b := s.chunks[e.k], e.b;
    assert c.imported < |c.rows| && c.batches[b].attempts == c.batches[b].submissions by { Waiting(cfg, s, e.k, b); }
    NoMore(c.ok);
    NoMore(c.failed);
    if TriedAgain(cfg, Flights(c.batches)[b], e.canMake) {
      RetryFated(cfg, e.k, c, b, e.timedOut, e.parse);
    } else {
      LossFated(cfg, e.k, c, b, e.timedOut, e.parse, e.canMake);
    }
  }

  lemma FlightsAdd(bs: seq<Batch>, b: Batch)
    ensures Flights(bs + [b]) == Flights(bs) + [Flight(b.rows, b.submissions)]
  {
  }

  lemma SubmitFated(cfg: Config, s: State, w: nat, rows: Rows)
    requires Shaped(cfg, s) && Enabled(cfg, s, SubmitBatch(w, rows))
    ensures var k := s.current[w].value;
      Fated(cfg, s, SubmitBatch(w, rows), k, OnSubmit(s.chunks[k], rows).chunk)
  {
    var c := s.chunks[s.current[w].value];
    NoMore(c.ok);
    NoMore(c.failed);
    FlightsAdd(c.batches, Batch(rows, 1, 1));
  }

  /** Giving rows up leaves the futures and the inserted rows alone. */
  lemma ReportKeeps(k: nat, c: Chunk, rows: Rows, parse: bool)
    ensures
      var d := OnReport(k, c, rows, parse).chunk;
      d.ok == c.ok && d.failed == c.failed + rows && d.batches == c.batches
  {
  }

  lemma ReportFated(cfg: Config, s: State, w: nat, rows: Rows, parse: bool)
    requires Shaped(cfg, s) && Enabled(cfg, s, ReportRows(w, rows, parse))
    ensures var k := s.current[w].value;
      Fated(cfg, s, ReportRows(w, rows, parse), k, OnReport(k, s.chunks[k], rows, parse).chunk)
  {
    var k := s.current[w].value;
    NoMore(s.chunks[k].ok);
    ReportKeeps(k, s.chunks[k], rows, parse);
  }

  /** An event that is not about chunk `k`. */
  lemma OtherFated(cfg: Config, s: State, e: Event, k: nat)
    requires Shaped(cfg, s) && Enabled(cfg, s, e) && k < |s.chunks|
    requires e.ReportRows? || e.SubmitBatch? ==> s.current[e.w].value != k
    requires e.BatchSucceeds? || e.BatchFails? ==> e.k != k
    ensures k < |Apply(cfg, s, e).chunks| && Fated(cfg, s, e, k, Apply(cfg, s, e).chunks[k])
  {
    NoMore(s.chunks[k].ok);
    NoMore(s.chunks[k].failed);
  }

  /** For every event in every reachable state, and every chunk: which rows are inserted and given
      up by it, and which futures there are after it. In particular a failed batch with attempts left
      whose statement can be made stays in flight with its rows and one more future. */
  lemma StepFates(cfg: Config, s: State, e: Event, k: nat)
    requires Inv(cfg, s) && Enabled(cfg, s, e) && k < |s.chunks|
    ensures k < |Apply(cfg, s, e).chunks| && Fated(cfg, s, e, k, Apply(cfg, s, e).chunks[k])
  {
    if e.BatchSucceeds? && e.k == k {
      SuccessFated(cfg, s, k, e.b);
    } else if e.BatchFails? && e.k == k {
      FailureFated(cfg, s, e);
    } else if e.SubmitBatch? && s.current[e.w].value == k {
      SubmitFated(cfg, s, e.w, e.rows);
    } else if e.ReportRows? && s.current[e.w].value == k {
      ReportFated(cfg, s, e.w, e.rows, e.parse);
    } else {
      OtherFated(cfg, s, e, k);
    }
  }

  /** So in every run a batch is given up by a failure only when its futures are used up or its
      statement cannot be made again. */
  lemma RetryExact(cfg: Config, es: seq<Event>, e: Event)
    requires Possible(cfg, Init(cfg), es)
    requires e.BatchFails? && Shaped(cfg, After(cfg, Init(cfg), es)) && Enabled(cfg, After(cfg, Init(cfg), es), e)
    ensures
      var s := After(cfg, Init(cfg), es);
      var c, d := s.chunks[e.k], Apply(cfg, s, e).chunks[e.k];
      var batch := c.batches[e.b];
      if batch.submissions < AttemptLimit(cfg) && e.canMake then
        && d.failed == c.failed && |d.batches| == |c.batches|
        && d.batches[e.b].rows == batch.rows && d.batches[e.b].submissions == batch.submissions + 1
      else d.failed == c.failed + batch.rows && |d.batches| == |c.batches| - 1
  {
    var s := After(cfg, Init(cfg), es);
    InitInv(cfg);
    RunInv(cfg, Init(cfg), es);
    var c := s.chunks[e.k];
    var d := Apply(cfg, s, e).chunks[e.k];
    Waiting(cfg, s, e.k, e.b);
    StepFates(cfg, s, e, e.k);
    NoMore(c.failed);
    assert |Flights(d.batches)| == |d.batches|;
    if TriedAgain(cfg, Flights(c.batches)[e.b], e.canMake) {
      assert Flights(d.batches)[e.b] == Flight(d.batches[e.b].rows, d.batches[e.b].submissions);
    }
  }

  // ---- what a run does ----

  ghost function GivenUpOver(cfg: Config, s: State, es: seq<Event>, k: nat): Rows
    requires Possible(cfg, s, es)
    decreases |es|
  {
    if es == [] then multiset{}
    else GivenUpBy(cfg, s, es[0], k) + GivenUpOver(cfg, Apply(cfg, s, es[0]), es[1..], k)
  }

  ghost function InsertedOver(cfg: Config, s: State, es: seq<Event>, k: nat): Rows
    requires Possible(cfg, s, es)
    decreases |es|
  {
    if es == [] then multiset{}
    else InsertedBy(cfg, s, es[0], k) + InsertedOver(cfg, Apply(cfg, s, es[0]), es[1..], k)
  }

  function OkOf(s: State, k: nat): Rows {
    if k < |s.chunks| then s.chunks[k].ok else multiset{}
  }

  function FailedOf(s: State, k: nat): Rows {
    if k < |s.chunks| then s.chunks[k].failed else multiset{}
  }

  /** A chunk not sent yet, or just being sent. */
  lemma NewSums(cfg: Config, s: State, e: Event, k: nat)
    requires Shaped(cfg, s) && Enabled(cfg, s, e) && k >= |s.chunks|
    ensures GivenUpBy(cfg, s, e, k) == InsertedBy(cfg, s, e, k) == multiset{}
    ensures OkOf(Apply(cfg, s, e), k) == FailedOf(Apply(cfg, s, e), k) == multiset{}
  {
  }

  lemma StepSums(cfg: Config, s: State, e: Event, k: nat)
    requires Inv(cfg, s) && Enabled(cfg, s, e)
    ensures OkOf(Apply(cfg, s, e), k) == OkOf(s, k) + InsertedBy(cfg, s, e, k)
    ensures FailedOf(Apply(cfg, s, e), k) == FailedOf(s, k) + GivenUpBy(cfg, s, e, k)
  {
    if k < |s.chunks| {
      StepFates(cfg, s, e, k);
    } else {
      NewSums(cfg, s, e, k);
      NoMore(multiset{});
    }
  }

  lemma {:induction false} RunFates(cfg: Config, s: State, es: seq<Event>, k: nat)
    requires Inv(cfg, s) && Possible(cfg, s, es)
    ensures OkOf(After(cfg, s, es), k) == OkOf(s, k) + InsertedOver(cfg, s, es, k)
    ensures FailedOf(After(cfg, s, es), k) == FailedOf(s, k) + GivenUpOver(cfg, s, es, k)
    decreases |es|
  {
    if es != [] {
      var e, t := es[0], Apply(cfg, s, es[0]);
      StepInv(cfg, s, e);
      StepSums(cfg, s, e, k);
      RunFates(cfg, t, es[1..], k);
      SumAssoc(OkOf(s, k), InsertedBy(cfg, s, e, k), InsertedOver(cfg, t, es[1..], k));
      SumAssoc(FailedOf(s, k), GivenUpBy(cfg, s, e, k), GivenUpOver(cfg, t, es[1..], k));
    }
  }

  /** In every run, for every chunk: the rows inserted are those of the batches that succeeded, and
      the rows given up those reported while dispatching and those of the failed batches that were
      not tried again, each as often. */
  lemma FatesExact(cfg: Config, es: seq<Event>, k: nat)
    requires Possible(cfg, Init(cfg), es) && k < |After(cfg, Init(cfg), es).chunks|
    ensures
      var c := After(cfg, Init(cfg), es).chunks[k];
      c.ok == InsertedOver(cfg, Init(cfg), es, k) && c.failed == GivenUpOver(cfg, Init(cfg), es, k)
  {
    InitInv(cfg);
    RunFates(cfg, Init(cfg), es, k);
  }

  // ---- why a row is given up ----

  /** In the run `es` the event at `i` comes upon this state. */
  ghost predicate Meets(cfg: Config, es: seq<Event>, i: nat, s: State) {
    i < |es| && Possible(cfg, Init(cfg), es[..i]) && s == After(cfg, Init(cfg), es[..i])
    && Shaped(cfg, s) && Enabled(cfg, s, es[i])
  }

  lemma {:induction false} GivenUpSource(cfg: Config, s: State, es: seq<Event>, k: nat, r: Row) returns (i: nat)
    requires Possible(cfg, s, es) && r in GivenUpOver(cfg, s, es, k)
    ensures i < |es| && Possible(cfg, s, es[..i])
    ensures
      var t := After(cfg, s, es[..i]);
      Shaped(cfg, t) && Enabled(cfg, t, es[i]) && r in GivenUpBy(cfg, t, es[i], k)
    decreases |es|
  {
    if r in GivenUpBy(cfg, s, es[0], k) {
      i := 0;
    } else {
      var j := GivenUpSource(cfg, Apply(cfg, s, es[0]), es[1..], k, r);
      i := j + 1;
      assert es[..i][1..] == es[1..][..j];
    }
  }

  /** The reason: the row was reported while dispatching, or its batch failed and had used up its
      futures, or its batch failed and no statement could be made to try it again. */
  ghost predicate Reason(cfg: Config, s: State, e: Event, r: Row)
    requires Shaped(cfg, s) && Enabled(cfg, s, e)
  {
    match e
    case ReportRows(_, rows, _) => r in rows
    case BatchFails(k, b, _, _, canMake) =>
      var batch := s.chunks[k].batches[b];
      r in batch.rows && (batch.submissions == AttemptLimit(cfg) || !canMake)
    case _ => false
  }

  /** A row given up has a reason in the run. */
  lemma WhyGivenUp(cfg: Config, es: seq<Event>, k: nat, r: Row)
    requires Possible(cfg, Init(cfg), es) && k < |After(cfg, Init(cfg), es).chunks|
    requires r in After(cfg, Init(cfg), es).chunks[k].failed
    ensures exists i: nat, s :: Meets(cfg, es, i, s) && Reason(cfg, s, es[i], r)
  {
    FatesExact(cfg, es, k);
    var i := GivenUpSource(cfg, Init(cfg), es, k, r);
    var s := After(cfg, Init(cfg), es[..i]);
    InitInv(cfg);
    RunInv(cfg, Init(cfg), es[..i]);
    if es[i].BatchFails? {
      Waiting(cfg, s, k, es[i].b);
    }
    assert Meets(cfg, es, i, s) && Reason(cfg, s, es[i], r);
  }
}
