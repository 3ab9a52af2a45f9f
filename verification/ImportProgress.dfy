/** COPY FROM always can finish: once the feeder is done every step but the parent's counting lowers a
    measure, and until the parent exits such a step, or the last count, is possible.
 */
module ImportProgress {
  import opened Common
  import opened ImportProtocol
  import opened ImportSystem

  // ---- nothing is forgotten ----

  /** Chunk `k` waits in its worker's channel or is being dispatched. */
  ghost predicate Held(cfg: Config, s: State, k: nat)
    requires Shaped(cfg, s) && k < |s.chunks|
  {
    var w := s.chunks[k].worker;
    s.current[w] == Some(k) || k in s.inbox[w]
  }

  /** Undispatched rows belong to a chunk that is held, and the feeder's count arrives. */
  ghost predicate Live(cfg: Config, s: State)
    requires Shaped(cfg, s)
  {
    && (forall k :: 0 <= k < |s.chunks| && s.chunks[k].todo != multiset{} ==> Held(cfg, s, k))
    && (s.feederDone ==> s.feeding.Some? || s.out[cfg.workers] != [])
  }

  ghost predicate LiveInv(cfg: Config, s: State) {
    Inv(cfg, s) && Live(cfg, s)
  }

  /** A worker action never adds undispatched rows. */
  ghost predicate KeepsTodo(c: Chunk, d: Chunk) {
    d.worker == c.worker && (c.todo == multiset{} ==> d.todo == multiset{})
  }

  lemma WorkerStepLive(cfg: Config, s: State, k: nat, e: Effect)
    requires LiveInv(cfg, s) && k < |s.chunks| && KeepsTodo(s.chunks[k], e.chunk)
    requires Shaped(cfg, WorkerStep(s, k, e))
    ensures Live(cfg, WorkerStep(s, k, e))
  {
    var t := WorkerStep(s, k, e);
    forall j | 0 <= j < |t.chunks| && t.chunks[j].todo != multiset{}
      ensures Held(cfg, t, j)
    {
      assert Held(cfg, s, j);
    }
  }

  lemma SendLive(cfg: Config, s: State, w: nat, rows: Rows)
    requires LiveInv(cfg, s) && Enabled(cfg, s, SendChunk(w, rows))
    requires Shaped(cfg, Apply(cfg, s, SendChunk(w, rows)))
    ensures Live(cfg, Apply(cfg, s, SendChunk(w, rows)))
  {
    var t := Apply(cfg, s, SendChunk(w, rows));
    forall j | 0 <= j < |t.chunks| && t.chunks[j].todo != multiset{}
      ensures Held(cfg, t, j)
    {
      if j < |s.chunks| {
        assert Held(cfg, s, j);
      }
    }
  }

  /** Taking the head of a channel keeps every chunk held. */
  lemma TakeHeld(cfg: Config, s: State, w: nat, j: nat)
    requires Shaped(cfg, s) && Enabled(cfg, s, TakeChunk(w)) && Shaped(cfg, Apply(cfg, s, TakeChunk(w)))
    requires j < |s.chunks| && Held(cfg, s, j)
    ensures Held(cfg, Apply(cfg, s, TakeChunk(w)), j)
  {
    if s.chunks[j].worker == w && j != s.inbox[w][0] {
      assert s.inbox[w] == [s.inbox[w][0]] + s.inbox[w][1..];
      assert j in s.inbox[w][1..];
    }
  }

  lemma TakeLive(cfg: Config, s: State, w: nat)
    requires LiveInv(cfg, s) && Enabled(cfg, s, TakeChunk(w)) && Shaped(cfg, Apply(cfg, s, TakeChunk(w)))
    ensures Live(cfg, Apply(cfg, s, TakeChunk(w)))
  {
    var t := Apply(cfg, s, TakeChunk(w));
    assert t.chunks == s.chunks && t.out == s.out && t.feeding == s.feeding && t.feederDone == s.feederDone;
    forall j | 0 <= j < |t.chunks| && t.chunks[j].todo != multiset{}
      ensures Held(cfg, t, j)
    {
      TakeHeld(cfg, s, w, j);
    }
  }

  lemma EndLive(cfg: Config, s: State, w: nat)
    requires LiveInv(cfg, s) && Enabled(cfg, s, EndChunk(w)) && Shaped(cfg, Apply(cfg, s, EndChunk(w)))
    ensures Live(cfg, Apply(cfg, s, EndChunk(w)))
  {
    var t := Apply(cfg, s, EndChunk(w));
    forall j | 0 <= j < |t.chunks| && t.chunks[j].todo != multiset{}
      ensures Held(cfg, t, j)
    {
      assert Held(cfg, s, j);
    }
  }

  lemma OtherLive(cfg: Config, s: State, e: Event)
    requires LiveInv(cfg, s) && Enabled(cfg, s, e) && (e.FinishFeeding? || e.FlushMeter? || e.Deliver?)
    requires Shaped(cfg, Apply(cfg, s, e))
    ensures Live(cfg, Apply(cfg, s, e))
  {
    var t := Apply(cfg, s, e);
    if e.Deliver? {
      ReceiveKeeps(s.(out := s.out[e.w := s.out[e.w][1..]]), s.out[e.w][0]);
      assert MsgOk(cfg, s, e.w, 0);
    }
    forall j | 0 <= j < |t.chunks| && t.chunks[j].todo != multiset{}
      ensures Held(cfg, t, j)
    {
      assert Held(cfg, s, j);
    }
  }

  // ---- the measure ----

  /** What a batch in flight may still cause: an error message and perhaps a result for each attempt. */
  function BatchLeft(cfg: Config, b: Batch): nat {
    3 * (if b.submissions <= AttemptLimit(cfg) then AttemptLimit(cfg) + 1 - b.submissions else 0)
  }

  function BatchesLeft(cfg: Config, bs: seq<Batch>): nat {
    if bs == [] then 0 else BatchLeft(cfg, bs[0]) + BatchesLeft(cfg, bs[1..])
  }

  function ChunkLeft(cfg: Config, c: Chunk): nat {
    (3 * AttemptLimit(cfg) + 3) * |c.todo| + BatchesLeft(cfg, c.batches)
  }

  function ChunksLeft(cfg: Config, cs: seq<Chunk>): nat {
    if cs == [] then 0 else ChunkLeft(cfg, cs[0]) + ChunksLeft(cfg, cs[1..])
  }

  function Taken(current: seq<Option<nat>>): nat {
    if current == [] then 0 else (if current[0].Some? then 1 else 0) + Taken(current[1..])
  }

  function Measure(cfg: Config, s: State): nat {
    ChunksLeft(cfg, s.chunks) + TotalLength(s.out) + 2 * TotalLength(s.inbox) + Taken(s.current)
  }

  lemma {:induction false} ChunksLeftUpdate(cfg: Config, cs: seq<Chunk>, k: nat, c: Chunk)
    requires k < |cs|
    ensures ChunksLeft(cfg, cs[k := c]) + ChunkLeft(cfg, cs[k]) == ChunksLeft(cfg, cs) + ChunkLeft(cfg, c)
  {
    if k == 0 {
      assert cs[0 := c][1..] == cs[1..];
    } else {
      ChunksLeftUpdate(cfg, cs[1..], k - 1, c);
      assert cs[k := c][1..] == cs[1..][k - 1 := c];
    }
  }

  lemma {:induction false} TakenUpdate(current: seq<Option<nat>>, w: nat, c: Option<nat>)
    requires w < |current|
    ensures Taken(current[w := c]) + (if current[w].Some? then 1 else 0) == Taken(current) + if c.Some? then 1 else 0
  {
    if w == 0 {
      assert current[0 := c][1..] == current[1..];
    } else {
      TakenUpdate(current[1..], w - 1, c);
      assert current[w := c][1..] == current[1..][w - 1 := c];
    }
  }

  lemma {:induction false} BatchesLeftRemove(cfg: Config, bs: seq<Batch>, b: nat)
    requires b < |bs|
    ensures BatchesLeft(cfg, bs) == BatchesLeft(cfg, bs[..b] + bs[b + 1..]) + BatchLeft(cfg, bs[b])
  {
    if b == 0 {
      assert bs[..0] + bs[1..] == bs[1..];
    } else {
      BatchesLeftRemove(cfg, bs[1..], b - 1);
      var without := bs[..b] + bs[b + 1..];
      assert without[1..] == bs[1..][..b - 1] + bs[1..][b..];
    }
  }

  lemma {:induction false} BatchesLeftAdd(cfg: Config, bs: seq<Batch>, b: Batch)
    ensures BatchesLeft(cfg, bs + [b]) == BatchesLeft(cfg, bs) + BatchLeft(cfg, b)
  {
    if bs == [] {
      assert (bs + [b])[1..] == [];
    } else {
      BatchesLeftAdd(cfg, bs[1..], b);
      assert (bs + [b])[1..] == bs[1..] + [b];
    }
  }

  lemma {:induction false} BatchesLeftReplace(cfg: Config, bs: seq<Batch>, b: nat, batch: Batch)
    requires b < |bs|
    ensures BatchesLeft(cfg, bs[b := batch]) + BatchLeft(cfg, bs[b]) == BatchesLeft(cfg, bs) + BatchLeft(cfg, batch)
  {
    if b == 0 {
      assert bs[0 := batch][1..] == bs[1..];
    } else {
      BatchesLeftReplace(cfg, bs[1..], b - 1, batch);
      assert bs[b := batch][1..] == bs[1..][b - 1 := batch];
    }
  }

  // ---- what one worker action lowers ----

  /** The chunk loses more than the messages add. */
  ghost predicate Falls(cfg: Config, c: Chunk, e: Effect) {
    KeepsTodo(c, e.chunk) && ChunkLeft(cfg, e.chunk) + |e.msgs| < ChunkLeft(cfg, c)
  }

  lemma GiveUpMessages(k: nat, c: Chunk, rows: Rows, parse: bool)
    ensures |GiveUp(k, c, rows, parse).msgs| <= 2
    ensures GiveUp(k, c, rows, parse).chunk.todo == c.todo && GiveUp(k, c, rows, parse).chunk.batches == c.batches
    ensures GiveUp(k, c, rows, parse).chunk.worker == c.worker
  {
  }

  lemma Product(f: nat, a: nat, b: nat)
    requires a + 1 <= b
    ensures f * a + f <= f * b
  {
    assert f * a + f == f * (a + 1);
    assert f * (a + 1) <= f * b;
  }

  lemma Fewer(f: nat, todo: Rows, rows: Rows)
    requires rows != multiset{} && rows <= todo
    ensures f * |todo - rows| + f <= f * |todo|
  {
    assert todo == (todo - rows) + rows;
    assert |todo - rows| + |rows| == |todo| && |rows| >= 1;
    Product(f, |todo - rows|, |todo|);
  }

  lemma ReportFalls(cfg: Config, k: nat, c: Chunk, rows: Rows, parse: bool)
    requires rows != multiset{} && rows <= c.todo
    ensures Falls(cfg, c, OnReport(k, c, rows, parse))
  {
    Fewer(3 * AttemptLimit(cfg) + 3, c.todo, rows);
    GiveUpMessages(k, c.(todo := c.todo - rows), rows, parse);
  }

  lemma SubmitFalls(cfg: Config, c: Chunk, rows: Rows)
    requires rows != multiset{} && rows <= c.todo
    ensures Falls(cfg, c, OnSubmit(c, rows))
  {
    Fewer(3 * AttemptLimit(cfg) + 3, c.todo, rows);
    BatchesLeftAdd(cfg, c.batches, Batch(rows, 1, 1));
  }

  lemma SuccessFalls(cfg: Config, k: nat, c: Chunk, b: nat)
    requires ChunkOk(cfg, c) && b < |c.batches|
    ensures Falls(cfg, c, OnSuccess(k, c, b))
  {
    assert BatchOk(cfg, c.batches[b]);
    BatchesLeftRemove(cfg, c.batches, b);
  }

  /** A batch that leaves takes more with it than three messages, if it had an attempt left. */
  lemma GiveUpFalls(cfg: Config, k: nat, c: Chunk, b: nat, parse: bool, e: Effect, extra: nat)
    requires ChunkOk(cfg, c) && b < |c.batches| && extra <= 1
    requires extra == 1 ==> c.batches[b].submissions < AttemptLimit(cfg)
    requires e.chunk.worker == c.worker && e.chunk.todo == c.todo && e.chunk.batches == WithoutBatch(c, b).batches
    requires |e.msgs| <= 2 + extra
    ensures Falls(cfg, c, e)
  {
    assert BatchOk(cfg, c.batches[b]);
    BatchesLeftRemove(cfg, c.batches, b);
  }

  lemma RetryFalls(cfg: Config, k: nat, c: Chunk, b: nat, parse: bool)
    requires ChunkOk(cfg, c) && b < |c.batches| && c.batches[b].attempts < cfg.maxAttempts
    ensures Falls(cfg, c, OnFailure(cfg, k, c, b, false, parse, true))
  {
    var batch := c.batches[b];
    assert BatchOk(cfg, batch);
    BatchesLeftReplace(cfg, c.batches, b, Batch(batch.rows, batch.attempts + 1, batch.submissions + 1));
  }

  lemma FailureFalls(cfg: Config, k: nat, c: Chunk, b: nat, timedOut: bool, parse: bool, canMake: bool)
    requires ChunkOk(cfg, c) && b < |c.batches|
    ensures Falls(cfg, c, OnFailure(cfg, k, c, b, timedOut, parse, canMake))
  {
    var batch, e := c.batches[b], OnFailure(cfg, k, c, b, timedOut, parse, canMake);
    assert BatchOk(cfg, batch);
    FailureOk(cfg, k, c, b, timedOut, parse, canMake);
    if batch.attempts >= cfg.maxAttempts {
      GiveUpMessages(k, WithoutBatch(c, b), batch.rows, parse);
      GiveUpFalls(cfg, k, c, b, parse, e, 0);
    } else if canMake {
      RetryFalls(cfg, k, c, b, parse);
    } else {
      var c' := if parse then c.(recounted := c.recounted + batch.rows) else c;
      GiveUpMessages(k, WithoutBatch(c', b), batch.rows, parse);
      GiveUpFalls(cfg, k, c, b, parse, e, 1);
    }
  }

  lemma WorkerStepFalls(cfg: Config, s: State, k: nat, e: Effect)
    requires k < |s.chunks| && s.chunks[k].worker < |s.out| && Falls(cfg, s.chunks[k], e)
    ensures Measure(cfg, WorkerStep(s, k, e)) < Measure(cfg, s)
  {
    var w := s.chunks[k].worker;
    ChunksLeftUpdate(cfg, s.chunks, k, e.chunk);
    TotalLengthUpdate(s.out, w, s.out[w] + e.msgs);
  }

  // ---- one step ----

  lemma WorkerEventFalls(cfg: Config, s: State, e: Event, k: nat, effect: Effect)
    requires LiveInv(cfg, s) && Enabled(cfg, s, e) && k < |s.chunks| && WorkerEvent(cfg, s, e, k, effect)
    requires Falls(cfg, s.chunks[k], effect)
    ensures LiveInv(cfg, Apply(cfg, s, e)) && Measure(cfg, Apply(cfg, s, e)) < Measure(cfg, s)
  {
    StepInv(cfg, s, e);
    WorkerSteps(cfg, s, e, k, effect);
    WorkerStepLive(cfg, s, k, effect);
    WorkerStepFalls(cfg, s, k, effect);
  }

  lemma TakeFalls(cfg: Config, s: State, w: nat)
    requires LiveInv(cfg, s) && Enabled(cfg, s, TakeChunk(w))
    ensures LiveInv(cfg, Apply(cfg, s, TakeChunk(w))) && Measure(cfg, Apply(cfg, s, TakeChunk(w))) < Measure(cfg, s)
  {
    StepInv(cfg, s, TakeChunk(w));
    TakeLive(cfg, s, w);
    TotalLengthUpdate(s.inbox, w, s.inbox[w][1..]);
    TakenUpdate(s.current, w, Some(s.inbox[w][0]));
  }

  lemma EndFalls(cfg: Config, s: State, w: nat)
    requires LiveInv(cfg, s) && Enabled(cfg, s, EndChunk(w))
    ensures LiveInv(cfg, Apply(cfg, s, EndChunk(w))) && Measure(cfg, Apply(cfg, s, EndChunk(w))) < Measure(cfg, s)
  {
    StepInv(cfg, s, EndChunk(w));
    EndLive(cfg, s, w);
    TakenUpdate(s.current, w, None);
  }

  lemma DeliverFalls(cfg: Config, s: State, w: nat)
    requires LiveInv(cfg, s) && Enabled(cfg, s, Deliver(w))
    ensures LiveInv(cfg, Apply(cfg, s, Deliver(w))) && Measure(cfg, Apply(cfg, s, Deliver(w))) < Measure(cfg, s)
  {
    StepInv(cfg, s, Deliver(w));
    OtherLive(cfg, s, Deliver(w));
    ReceiveKeeps(s.(out := s.out[w := s.out[w][1..]]), s.out[w][0]);
    TotalLengthUpdate(s.out, w, s.out[w][1..]);
  }

  /** Steps of the feeder, and the parent's counting. */
  predicate Outer(e: Event) {
    e.SendChunk? || e.FinishFeeding? || e.FlushMeter?
  }

  /** Every step of a worker, of the driver or of a channel lowers the measure. */
  lemma StepFalls(cfg: Config, s: State, e: Event)
    requires LiveInv(cfg, s) && Enabled(cfg, s, e) && !Outer(e)
    ensures LiveInv(cfg, Apply(cfg, s, e)) && Measure(cfg, Apply(cfg, s, e)) < Measure(cfg, s)
  {
    match e
    case TakeChunk(w) => TakeFalls(cfg, s, w);
    case EndChunk(w) => EndFalls(cfg, s, w);
    case Deliver(w) => DeliverFalls(cfg, s, w);
    case ReportRows(w, rows, parse) =>
      var k := s.current[w].value;
      ReportFalls(cfg, k, s.chunks[k], rows, parse);
      WorkerEventFalls(cfg, s, e, k, OnReport(k, s.chunks[k], rows, parse));
    case SubmitBatch(w, rows) =>
      var k := s.current[w].value;
      SubmitFalls(cfg, s.chunks[k], rows);
      WorkerEventFalls(cfg, s, e, k, OnSubmit(s.chunks[k], rows));
    case BatchSucceeds(k, b) =>
      SuccessFalls(cfg, k, s.chunks[k], b);
      WorkerEventFalls(cfg, s, e, k, OnSuccess(k, s.chunks[k], b));
    case BatchFails(k, b, timedOut, parse, canMake) =>
      FailureFalls(cfg, k, s.chunks[k], b, timedOut, parse, canMake);
      WorkerEventFalls(cfg, s, e, k, OnFailure(cfg, k, s.chunks[k], b, timedOut, parse, canMake));
  }

  lemma OuterLive(cfg: Config, s: State, e: Event)
    requires LiveInv(cfg, s) && Enabled(cfg, s, e) && Outer(e)
    ensures LiveInv(cfg, Apply(cfg, s, e))
    ensures e.FlushMeter? ==> Measure(cfg, Apply(cfg, s, e)) == Measure(cfg, s)
  {
    StepInv(cfg, s, e);
    if e.SendChunk? {
      SendLive(cfg, s, e.w, e.rows);
    } else {
      OtherLive(cfg, s, e);
    }
  }

  // ---- until the parent exits something can happen ----

  /** No worker, batch or channel has anything left to do. */
  ghost predicate Quiet(cfg: Config, s: State)
    requires Shaped(cfg, s)
  {
    && (forall w :: 0 <= w < cfg.workers ==> s.current[w].None? && s.inbox[w] == [])
    && (forall k :: 0 <= k < |s.chunks| ==> s.chunks[k].batches == [])
    && (forall w :: 0 <= w < |s.out| ==> s.out[w] == [])
  }

  /** A worker with a chunk at hand can dispatch its rows or let it go. */
  lemma CanDispatch(cfg: Config, s: State, w: nat) returns (e: Event)
    requires Shaped(cfg, s) && w < cfg.workers && s.current[w].Some?
    ensures Enabled(cfg, s, e) && !Outer(e)
  {
    var todo := s.chunks[s.current[w].value].todo;
    if todo == multiset{} {
      e := EndChunk(w);
    } else {
      e := SubmitBatch(w, todo);
    }
  }

  ghost predicate Busy(cfg: Config, s: State)
    requires Shaped(cfg, s)
  {
    exists w :: 0 <= w < cfg.workers && (s.current[w].Some? || s.inbox[w] != [])
  }

  lemma BusyStep(cfg: Config, s: State) returns (e: Event)
    requires Shaped(cfg, s) && Busy(cfg, s)
    ensures Enabled(cfg, s, e) && !Outer(e)
  {
    var w :| 0 <= w < cfg.workers && (s.current[w].Some? || s.inbox[w] != []);
    if s.current[w].Some? {
      e := CanDispatch(cfg, s, w);
    } else {
      e := TakeChunk(w);
    }
  }

  lemma CanStep(cfg: Config, s: State) returns (e: Event)
    requires LiveInv(cfg, s) && !Quiet(cfg, s)
    ensures Enabled(cfg, s, e) && !Outer(e)
  {
    if Busy(cfg, s) {
      e := BusyStep(cfg, s);
    } else if k :| 0 <= k < |s.chunks| && s.chunks[k].batches != [] {
      e := BatchSucceeds(k, 0);
    } else {
      assert forall w :: 0 <= w < cfg.workers ==> s.current[w].None? && s.inbox[w] == [];
      var w :| 0 <= w < |s.out| && s.out[w] != [];
      e := Deliver(w);
    }
  }

  lemma {:induction false} AllReported(cs: seq<Chunk>)
    requires forall k :: 0 <= k < |cs| ==> cs[k].results == 1
    ensures ReportedRows(cs) == SentRows(cs)
  {
    if cs != [] {
      AllReported(cs[1..]);
    }
  }

  /** When nothing is left to do the parent's next count ends its loop. */
  lemma QuietExits(cfg: Config, s: State)
    requires LiveInv(cfg, s) && s.feederDone && Quiet(cfg, s)
    ensures Finished(Apply(cfg, s, FlushMeter))
  {
    forall k | 0 <= k < |s.chunks|
      ensures s.chunks[k].results == 1
    {
      assert s.chunks[k].todo != multiset{} ==> Held(cfg, s, k);
      assert ChunkOk(cfg, s.chunks[k]);
      CountBounds(cfg, s.chunks[k]);
    }
    AllReported(s.chunks);
    NoMessages(s.out);
  }

  // ---- runs ----

  lemma {:induction false} RunLive(cfg: Config, s: State, es: seq<Event>)
    requires LiveInv(cfg, s) && Possible(cfg, s, es)
    ensures LiveInv(cfg, After(cfg, s, es))
    decreases |es|
  {
    if es != [] {
      if Outer(es[0]) {
        OuterLive(cfg, s, es[0]);
      } else {
        StepFalls(cfg, s, es[0]);
      }
      RunLive(cfg, Apply(cfg, s, es[0]), es[1..]);
    }
  }

  function Counts(es: seq<Event>): nat {
    if es == [] then 0 else (if es[0].FlushMeter? then 1 else 0) + Counts(es[1..])
  }

  lemma StaysDone(cfg: Config, s: State, e: Event)
    requires Shaped(cfg, s) && s.feederDone && Enabled(cfg, s, e)
    ensures Apply(cfg, s, e).feederDone && !e.SendChunk? && !e.FinishFeeding?
  {
  }

  /** Once the feeder is done, no run goes on for ever: its steps other than counting are bounded. */
  lemma {:induction false} StepsBounded(cfg: Config, s: State, es: seq<Event>)
    requires LiveInv(cfg, s) && s.feederDone && Possible(cfg, s, es)
    ensures |es| - Counts(es) <= Measure(cfg, s)
    decreases |es|
  {
    if es != [] {
      StaysDone(cfg, s, es[0]);
      if es[0].FlushMeter? {
        OuterLive(cfg, s, es[0]);
      } else {
        StepFalls(cfg, s, es[0]);
      }
      StepsBounded(cfg, Apply(cfg, s, es[0]), es[1..]);
    }
  }

  lemma Prepend(cfg: Config, s: State, e: Event, es: seq<Event>)
    requires Shaped(cfg, s) && Enabled(cfg, s, e) && Possible(cfg, Apply(cfg, s, e), es)
    ensures Possible(cfg, s, [e] + es) && After(cfg, s, [e] + es) == After(cfg, Apply(cfg, s, e), es)
  {
    assert ([e] + es)[1..] == es;
  }

  lemma {:induction false} CanFinish(cfg: Config, s: State) returns (es: seq<Event>)
    requires LiveInv(cfg, s) && s.feederDone
    ensures Possible(cfg, s, es) && Finished(After(cfg, s, es))
    decreases Measure(cfg, s)
  {
    var e;
    if Quiet(cfg, s) {
      QuietExits(cfg, s);
      e, es := FlushMeter, [];
    } else {
      e := CanStep(cfg, s);
      StepFalls(cfg, s, e);
      StaysDone(cfg, s, e);
      es := CanFinish(cfg, Apply(cfg, s, e));
    }
    Prepend(cfg, s, e, es);
    es := [e] + es;
  }

  lemma {:induction false} RunOn(cfg: Config, s: State, es: seq<Event>, more: seq<Event>)
    requires Possible(cfg, s, es) && Possible(cfg, After(cfg, s, es), more)
    ensures Possible(cfg, s, es + more) && After(cfg, s, es + more) == After(cfg, After(cfg, s, es), more)
    decreases |es|
  {
    if es == [] {
      assert es + more == more;
    } else {
      assert (es + more)[0] == es[0] && (es + more)[1..] == es[1..] + more;
      RunOn(cfg, Apply(cfg, s, es[0]), es[1..], more);
    }
  }

  lemma InitLive(cfg: Config)
    ensures LiveInv(cfg, Init(cfg))
  {
    InitInv(cfg);
  }

  /** Every run can be continued to the parent's own exit. */
  lemma ImportCanFinish(cfg: Config, es: seq<Event>) returns (more: seq<Event>)
    requires Possible(cfg, Init(cfg), es)
    ensures Possible(cfg, Init(cfg), es + more) && Finished(After(cfg, Init(cfg), es + more))
  {
    InitLive(cfg);
    RunLive(cfg, Init(cfg), es);
    var s := After(cfg, Init(cfg), es);
    if s.feederDone {
      more := CanFinish(cfg, s);
    } else {
      OuterLive(cfg, s, FinishFeeding);
      more := CanFinish(cfg, Apply(cfg, s, FinishFeeding));
      Prepend(cfg, s, FinishFeeding, more);
      more := [FinishFeeding] + more;
    }
    RunOn(cfg, Init(cfg), es, more);
  }
}
