/** COPY FROM: the feeder, the worker processes and the parent as one state machine.

    A step is one action of one process: the feeder sending a chunk, a worker taking a chunk from
    its channel, reporting rows that cannot be converted or batched, submitting a batch, the
    driver completing one submitted future, or the parent receiving one message. Every channel is
    first-in first-out. Which step comes next, which rows fail and which futures fail is left open.

    The environment is assumed to complete every submitted future with exactly one callback, to let
    no exception escape the dispatch loop, and to yield one csv row per line.
 */
module ImportProtocol {
  import opened Common

  /** Rows are only moved around, so a row is just its number. */
  type Row = int

  /** Lists of rows, up to order. */
  type Rows = multiset<Row>

  datatype Config = Config(workers: nat, maxAttempts: int)

  /** `submissions` counts the futures created for the batch. */
  datatype Batch = Batch(rows: Rows, attempts: nat, submissions: nat)

  /** A chunk as its worker knows it. `rows` and `imported` are the source's fields; the rest is
      bookkeeping: rows not yet dispatched, batches with a future in flight, rows inserted, rows
      given up, rows written to the error file although they were tried again, and the number of
      results reported. */
  datatype Chunk = Chunk(
    worker: nat, rows: Rows, imported: nat,
    todo: Rows, batches: seq<Batch>,
    ok: Rows, failed: Rows, recounted: Rows, results: nat)

  /** Messages to the parent; the chunk number is not sent, it is there to talk about the message. */
  datatype Msg =
    | Result(chunk: nat, imported: nat)
    | TaskError(chunk: nat, rows: Rows, parse: bool, final: bool)
    | Fed(sent: nat)

  datatype Effect = Effect(chunk: Chunk, msgs: seq<Msg>)

  // ---- one chunk ----

  /** update_chunk: count the rows; the count that completes the chunk reports it. */
  function Update(k: nat, c: Chunk, n: nat): Effect {
    var imported := c.imported + n;
    if imported == |c.rows|
    then Effect(c.(imported := imported, results := c.results + 1), [Result(k, |c.rows|)])
    else Effect(c.(imported := imported), [])
  }

  /** report_error with final set: the rows are given up, reported, and counted. */
  function GiveUp(k: nat, c: Chunk, rows: Rows, parse: bool): Effect {
    var e := Update(k, c.(failed := c.failed + rows), |rows|);
    Effect(e.chunk, [TaskError(k, rows, parse, true)] + e.msgs)
  }

  function WithoutBatch(c: Chunk, b: nat): Chunk
    requires b < |c.batches|
  {
    c.(batches := c.batches[..b] + c.batches[b + 1..])
  }

  function OnReport(k: nat, c: Chunk, rows: Rows, parse: bool): Effect {
    GiveUp(k, c.(todo := c.todo - rows), rows, parse)
  }

  function OnSubmit(c: Chunk, rows: Rows): Effect {
    Effect(c.(todo := c.todo - rows, batches := c.batches + [Batch(rows, 1, 1)]), [])
  }

  /** result_callback. */
  function OnSuccess(k: nat, c: Chunk, b: nat): Effect
    requires b < |c.batches|
  {
    var rows := c.batches[b].rows;
    Update(k, WithoutBatch(c, b).(ok := c.ok + rows), |rows|)
  }

  /** err_callback: drop a false timeout, give up after the last attempt, otherwise try again; the
      retry may fail to make its statement, which gives the rows up as well. */
  function OnFailure(cfg: Config, k: nat, c: Chunk, b: nat, timedOut: bool, parse: bool, canMake: bool): Effect
    requires b < |c.batches|
  {
    var batch := c.batches[b];
    if timedOut && c.imported == |c.rows| then Effect(WithoutBatch(c, b), [])
    else if batch.attempts >= cfg.maxAttempts then GiveUp(k, WithoutBatch(c, b), batch.rows, parse)
    else
      var again := TaskError(k, batch.rows, parse, false);
      var c' := if parse then c.(recounted := c.recounted + batch.rows) else c;
      if canMake then
        Effect(c'.(batches := c.batches[b := Batch(batch.rows, batch.attempts + 1, batch.submissions + 1)]), [again])
      else
        var e := GiveUp(k, WithoutBatch(c', b), batch.rows, parse);
        Effect(e.chunk, [again] + e.msgs)
  }

  // ---- invariant of one chunk ----

  ghost function BatchRows(bs: seq<Batch>): Rows {
    if bs == [] then multiset{} else bs[0].rows + BatchRows(bs[1..])
  }

  function AttemptLimit(cfg: Config): nat {
    if cfg.maxAttempts > 1 then cfg.maxAttempts else 1
  }

  ghost predicate BatchOk(cfg: Config, b: Batch) {
    b.rows != multiset{} && 1 <= b.attempts == b.submissions <= AttemptLimit(cfg)
  }

  /** Every row of the chunk is in exactly one place, and the count is the number of settled rows. */
  ghost predicate ChunkOk(cfg: Config, c: Chunk) {
    && c.rows != multiset{}
    && c.rows == c.todo + BatchRows(c.batches) + c.ok + c.failed
    && c.imported == |c.ok| + |c.failed|
    && c.results == (if c.imported == |c.rows| then 1 else 0)
    && forall i :: 0 <= i < |c.batches| ==> BatchOk(cfg, c.batches[i])
  }

  lemma {:induction false} BatchRowsRemove(bs: seq<Batch>, b: nat)
    requires b < |bs|
    ensures BatchRows(bs) == BatchRows(bs[..b] + bs[b + 1..]) + bs[b].rows
  {
    if b == 0 {
      assert bs[..0] + bs[1..] == bs[1..];
    } else {
      BatchRowsRemove(bs[1..], b - 1);
      var without := bs[..b] + bs[b + 1..];
      assert without[1..] == bs[1..][..b - 1] + bs[1..][b..];
    }
  }

  lemma {:induction false} BatchRowsAdd(bs: seq<Batch>, b: Batch)
    ensures BatchRows(bs + [b]) == BatchRows(bs) + b.rows
  {
    if bs == [] {
      assert BatchRows([] + [b]) == BatchRows([b]) == b.rows + BatchRows([]);
    } else {
      BatchRowsAdd(bs[1..], b);
      assert (bs + [b])[1..] == bs[1..] + [b];
    }
  }

  lemma {:induction false} BatchRowsReplace(bs: seq<Batch>, b: nat, batch: Batch)
    requires b < |bs| && batch.rows == bs[b].rows
    ensures BatchRows(bs[b := batch]) == BatchRows(bs)
  {
    if b == 0 {
      assert bs[0 := batch][1..] == bs[1..];
    } else {
      BatchRowsReplace(bs[1..], b - 1, batch);
      assert bs[b := batch][1..] == bs[1..][b - 1 := batch];
    }
  }

  /** The count never passes the chunk size, and reaches it exactly when no row is left anywhere. */
  lemma CountBounds(cfg: Config, c: Chunk)
    requires ChunkOk(cfg, c)
    ensures c.imported <= |c.rows|
    ensures c.imported == |c.rows| <==> c.todo == multiset{} && BatchRows(c.batches) == multiset{}
    ensures c.imported == |c.rows| <==> c.ok + c.failed == c.rows
    ensures BatchRows(c.batches) == multiset{} <==> c.batches == []
  {
    var open := c.todo + BatchRows(c.batches);
    assert |c.rows| == |open| + |c.ok| + |c.failed|;
    if c.ok + c.failed == c.rows {
      assert open == multiset{};
    }
    if c.batches != [] {
      assert BatchOk(cfg, c.batches[0]);
    }
  }

  /** What a worker action on chunk `k` does to the messages: it only speaks about `k`, announces
      the completion last and once, and reports exactly the rows it gives up or counts again. */
  ghost predicate EffectOk(k: nat, c: Chunk, e: Effect) {
    && e.chunk.worker == c.worker && e.chunk.rows == c.rows
    && c.results <= e.chunk.results <= c.results + 1
    && ResultRows(e.msgs) == |c.rows| * (e.chunk.results - c.results)
    && ErrorRows(e.msgs) + c.failed + c.recounted == e.chunk.failed + e.chunk.recounted
    && (forall i :: 0 <= i < |e.msgs| ==> !e.msgs[i].Fed? && e.msgs[i].chunk == k)
    && (c.results > 0 ==> e.msgs == [])
    && (c.results < e.chunk.results ==> |e.msgs| > 0 && e.msgs[|e.msgs| - 1].Result?)
    && (forall i :: 0 <= i < |e.msgs| && e.msgs[i].Result? ==> e.msgs[i].imported == |c.rows|)
  }

  function ResultOf(m: Msg): nat {
    if m.Result? then m.imported else 0
  }

  function ErrorOf(m: Msg): Rows {
    if m.TaskError? && (m.parse || m.final) then m.rows else multiset{}
  }

  /** The rows the parent counts as imported when it has received `ms`. */
  function ResultRows(ms: seq<Msg>): nat {
    if ms == [] then 0 else ResultOf(ms[0]) + ResultRows(ms[1..])
  }

  /** The rows the parent writes to its error file when it has received `ms`. */
  function ErrorRows(ms: seq<Msg>): Rows {
    if ms == [] then multiset{} else ErrorOf(ms[0]) + ErrorRows(ms[1..])
  }

  lemma {:induction false} ResultRowsConcat(a: seq<Msg>, b: seq<Msg>)
    ensures ResultRows(a + b) == ResultRows(a) + ResultRows(b)
  {
    if a == [] {
      assert a + b == b;
    } else {
      ResultRowsConcat(a[1..], b);
      assert (a + b)[1..] == a[1..] + b;
    }
  }

  lemma {:induction false} ErrorRowsConcat(a: seq<Msg>, b: seq<Msg>)
    ensures ErrorRows(a + b) == ErrorRows(a) + ErrorRows(b)
  {
    if a == [] {
      assert a + b == b;
    } else {
      ErrorRowsConcat(a[1..], b);
      assert (a + b)[0] == a[0] && (a + b)[1..] == a[1..] + b;
      SumAssoc(ErrorOf(a[0]), ErrorRows(a[1..]), ErrorRows(b));
    }
  }

  lemma SumAssoc(x: Rows, y: Rows, z: Rows)
    ensures x + (y + z) == x + y + z
  {
  }

  lemma OneMsg(m: Msg)
    ensures ResultRows([m]) == ResultOf(m) && ErrorRows([m]) == ErrorOf(m)
  {
    assert [m][1..] == [];
  }

  lemma GiveUpOk(cfg: Config, k: nat, c: Chunk, rows: Rows, parse: bool)
    requires rows != multiset{} && ChunkOk(cfg, c.(failed := c.failed + rows, imported :=
        c.imported + |rows|, results := if c.imported + |rows| == |c.rows| then 1 else 0))
    requires c.results == 0
    ensures ChunkOk(cfg, GiveUp(k, c, rows, parse).chunk)
    ensures EffectOk(k, c, GiveUp(k, c, rows, parse))
  {
    var e := Update(k, c.(failed := c.failed + rows), |rows|);
    var error := TaskError(k, rows, parse, true);
    OneMsg(error);
    OneMsg(Result(k, |c.rows|));
    ResultRowsConcat([error], e.msgs);
    ErrorRowsConcat([error], e.msgs);
  }

  lemma ReportOk(cfg: Config, k: nat, c: Chunk, rows: Rows, parse: bool)
    requires ChunkOk(cfg, c) && rows != multiset{} && rows <= c.todo
    ensures ChunkOk(cfg, OnReport(k, c, rows, parse).chunk)
    ensures EffectOk(k, c, OnReport(k, c, rows, parse))
  {
    CountBounds(cfg, c);
    GiveUpOk(cfg, k, c.(todo := c.todo - rows), rows, parse);
  }

  lemma SubmitOk(cfg: Config, k: nat, c: Chunk, rows: Rows)
    requires ChunkOk(cfg, c) && rows != multiset{} && rows <= c.todo
    ensures ChunkOk(cfg, OnSubmit(c, rows).chunk)
    ensures EffectOk(k, c, OnSubmit(c, rows))
  {
    BatchRowsAdd(c.batches, Batch(rows, 1, 1));
  }

  lemma WithoutBatchRows(cfg: Config, c: Chunk, b: nat)
    requires ChunkOk(cfg, c) && b < |c.batches|
    ensures c.batches[b].rows != multiset{} && c.imported < |c.rows|
    ensures BatchRows(c.batches) == BatchRows(WithoutBatch(c, b).batches) + c.batches[b].rows
    ensures forall i :: 0 <= i < |WithoutBatch(c, b).batches| ==> BatchOk(cfg, WithoutBatch(c, b).batches[i])
  {
    BatchRowsRemove(c.batches, b);
    CountBounds(cfg, c);
    assert BatchOk(cfg, c.batches[b]);
  }

  lemma SuccessChunk(cfg: Config, k: nat, c: Chunk, b: nat)
    requires ChunkOk(cfg, c) && b < |c.batches|
    ensures ChunkOk(cfg, OnSuccess(k, c, b).chunk)
  {
    WithoutBatchRows(cfg, c, b);
    MoveRows(c.todo, BatchRows(WithoutBatch(c, b).batches), c.batches[b].rows, c.ok, c.failed);
  }

  lemma SuccessOk(cfg: Config, k: nat, c: Chunk, b: nat)
    requires ChunkOk(cfg, c) && b < |c.batches|
    ensures ChunkOk(cfg, OnSuccess(k, c, b).chunk)
    ensures EffectOk(k, c, OnSuccess(k, c, b))
  {
    SuccessChunk(cfg, k, c, b);
    WithoutBatchRows(cfg, c, b);
    OneMsg(Result(k, |c.rows|));
  }

  /** Rows leaving a batch for the inserted or for the failed rows. */
  lemma MoveRows(todo: Rows, batches: Rows, rows: Rows, ok: Rows, failed: Rows)
    ensures todo + (batches + rows) + ok + failed == todo + batches + (ok + rows) + failed
    ensures todo + (batches + rows) + ok + failed == todo + batches + ok + (failed + rows)
  {
  }

  /** In particular the false-timeout branch is never taken while the futures behave: the batch
      that timed out still holds rows that are not counted. */
  lemma FailureOk(cfg: Config, k: nat, c: Chunk, b: nat, timedOut: bool, parse: bool, canMake: bool)
    requires ChunkOk(cfg, c) && b < |c.batches|
    ensures !(timedOut && c.imported == |c.rows|)
    ensures ChunkOk(cfg, OnFailure(cfg, k, c, b, timedOut, parse, canMake).chunk)
    ensures EffectOk(k, c, OnFailure(cfg, k, c, b, timedOut, parse, canMake))
  {
    var batch := c.batches[b];
    WithoutBatchRows(cfg, c, b);
    assert BatchOk(cfg, batch);
    MoveRows(c.todo, BatchRows(WithoutBatch(c, b).batches), batch.rows, c.ok, c.failed);
    if batch.attempts >= cfg.maxAttempts {
      GiveUpOk(cfg, k, WithoutBatch(c, b), batch.rows, parse);
    } else if canMake {
      RetryOk(cfg, k, c, b, parse);
    } else {
      LostRetryOk(cfg, k, c, b, parse);
    }
  }

  lemma RetryChunk(cfg: Config, k: nat, c: Chunk, b: nat, parse: bool)
    requires ChunkOk(cfg, c) && b < |c.batches| && c.imported < |c.rows| && c.batches[b].attempts < cfg.maxAttempts
    ensures ChunkOk(cfg, OnFailure(cfg, k, c, b, false, parse, true).chunk)
  {
    var batch := c.batches[b];
    assert BatchOk(cfg, batch);
    BatchRowsReplace(c.batches, b, Batch(batch.rows, batch.attempts + 1, batch.submissions + 1));
  }

  lemma RetryOk(cfg: Config, k: nat, c: Chunk, b: nat, parse: bool)
    requires ChunkOk(cfg, c) && b < |c.batches| && c.imported < |c.rows| && c.batches[b].attempts < cfg.maxAttempts
    ensures ChunkOk(cfg, OnFailure(cfg, k, c, b, false, parse, true).chunk)
    ensures EffectOk(k, c, OnFailure(cfg, k, c, b, false, parse, true))
  {
    RetryChunk(cfg, k, c, b, parse);
    OneMsg(TaskError(k, c.batches[b].rows, parse, false));
  }

  lemma LostRetryOk(cfg: Config, k: nat, c: Chunk, b: nat, parse: bool)
    requires ChunkOk(cfg, c) && b < |c.batches| && c.imported < |c.rows| && c.batches[b].attempts < cfg.maxAttempts
    ensures ChunkOk(cfg, OnFailure(cfg, k, c, b, false, parse, false).chunk)
    ensures EffectOk(k, c, OnFailure(cfg, k, c, b, false, parse, false))
  {
    var batch := c.batches[b];
    WithoutBatchRows(cfg, c, b);
    MoveRows(c.todo, BatchRows(WithoutBatch(c, b).batches), batch.rows, c.ok, c.failed);
    var c' := if parse then c.(recounted := c.recounted + batch.rows) else c;
    GiveUpOk(cfg, k, WithoutBatch(c', b), batch.rows, parse);
    RetryThenOk(k, c, batch.rows, parse, WithoutBatch(c', b), GiveUp(k, WithoutBatch(c', b), batch.rows, parse));
  }

  lemma RetryThenOk(k: nat, c: Chunk, rows: Rows, parse: bool, c': Chunk, e: Effect)
    requires c'.worker == c.worker && c'.rows == c.rows && c'.results == c.results == 0 && c'.failed == c.failed
    requires c'.recounted == if parse then c.recounted + rows else c.recounted
    requires EffectOk(k, c', e)
    ensures EffectOk(k, c, Effect(e.chunk, [TaskError(k, rows, parse, false)] + e.msgs))
  {
    var again := TaskError(k, rows, parse, false);
    OneMsg(again);
    ResultRowsConcat([again], e.msgs);
    ErrorRowsConcat([again], e.msgs);
    SumAssoc(ErrorOf(again), ErrorRows(e.msgs), c.failed);
  }

  // ---- the callbacks on the mutable chunk and batch ----

  class ChunkObject {
    const id: nat
    const rows: Rows
    var imported: nat

    constructor (id: nat, rows: Rows)
      ensures this.id == id && this.rows == rows && imported == 0
    {
      this.id, this.rows, imported := id, rows, 0;
    }
  }

  class BatchObject {
    const rows: Rows
    var attempts: nat

    constructor (rows: Rows)
      ensures this.rows == rows && attempts == 1
    {
      this.rows, attempts := rows, 1;
    }
  }

  /** The object `chunk` and its `b`th batch stand for the abstract chunk `c`. */
  ghost predicate Stands(chunk: ChunkObject, batch: BatchObject, c: Chunk, b: nat)
    reads chunk, batch
  {
    && c.rows == chunk.rows && c.imported == chunk.imported
    && b < |c.batches| && c.batches[b].rows == batch.rows && c.batches[b].attempts == batch.attempts
  }

  class ImportWorker {
    const cfg: Config
    var outmsg: seq<Msg>

    constructor (cfg: Config)
      ensures this.cfg == cfg && outmsg == []
    {
      this.cfg, outmsg := cfg, [];
    }

    method UpdateChunk(rows: Rows, chunk: ChunkObject, ghost c: Chunk)
      requires c.rows == chunk.rows && c.imported == chunk.imported
      modifies this`outmsg, chunk`imported
      ensures chunk.imported == Update(chunk.id, c, |rows|).chunk.imported
      ensures outmsg == old(outmsg) + Update(chunk.id, c, |rows|).msgs
    {
      chunk.imported := chunk.imported + |rows|;
      if chunk.imported == |chunk.rows| {
        outmsg := outmsg + [Result(chunk.id, |chunk.rows|)];
      }
    }

    method ReportFinal(rows: Rows, chunk: ChunkObject, parse: bool, ghost c: Chunk)
      requires c.rows == chunk.rows && c.imported == chunk.imported
      modifies this`outmsg, chunk`imported
      ensures chunk.imported == GiveUp(chunk.id, c, rows, parse).chunk.imported
      ensures outmsg == old(outmsg) + GiveUp(chunk.id, c, rows, parse).msgs
    {
      outmsg := outmsg + [TaskError(chunk.id, rows, parse, true)];
      UpdateChunk(rows, chunk, c.(failed := c.failed + rows));
    }

    method ResultCallback(batch: BatchObject, chunk: ChunkObject, ghost c: Chunk, ghost b: nat)
      requires Stands(chunk, batch, c, b)
      modifies this`outmsg, chunk`imported
      ensures chunk.imported == OnSuccess(chunk.id, c, b).chunk.imported
      ensures outmsg == old(outmsg) + OnSuccess(chunk.id, c, b).msgs
    {
      UpdateChunk(batch.rows, chunk, WithoutBatch(c, b).(ok := c.ok + batch.rows));
    }

    /** `again` says that a new future was created for the batch. */
    method ErrCallback(batch: BatchObject, chunk: ChunkObject, timedOut: bool, parse: bool, canMake: bool,
        ghost c: Chunk, ghost b: nat)
    returns (again: bool)
      requires Stands(chunk, batch, c, b)
      modifies this`outmsg, chunk`imported, batch`attempts
      ensures
        var e := OnFailure(cfg, chunk.id, c, b, timedOut, parse, canMake);
        && chunk.imported == e.chunk.imported && outmsg == old(outmsg) + e.msgs
        && (again <==> |e.chunk.batches| == |c.batches|)
        && (again ==> Stands(chunk, batch, e.chunk, b))
        && (again ==> e.chunk.batches[b].submissions == c.batches[b].submissions + 1)
    {
      again := false;
      if timedOut && chunk.imported == |chunk.rows| { return; }
      var final := batch.attempts >= cfg.maxAttempts;
      if final {
        ReportFinal(batch.rows, chunk, parse, WithoutBatch(c, b));
      } else {
        outmsg := outmsg + [TaskError(chunk.id, batch.rows, parse, false)];
        batch.attempts := batch.attempts + 1;
        if canMake {
          again := true;
        } else {
          ghost var c' := if parse then c.(recounted := c.recounted + batch.rows) else c;
          ReportFinal(batch.rows, chunk, parse, WithoutBatch(c', b));
        }
      }
    }
  }
}
