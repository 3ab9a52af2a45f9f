/** A run of COPY FROM whose error file names a row that was inserted: the batch of row 7 fails once
    with an error named like a parse error, and succeeds when it is tried again.
 */
module ErrorFileRun {
  import opened Common
  import opened ImportProtocol
  import opened ImportSystem

  const CFG := Config(1, 2)
  const ROWS: Rows := multiset{7}

  // The chunk before it is dispatched, in flight, in flight again, and done.
  const C0 := NewChunk(0, ROWS)
  const C1 := C0.(todo := multiset{}, batches := [Batch(ROWS, 1, 1)])
  const C2 := C1.(batches := [Batch(ROWS, 2, 2)], recounted := ROWS)
  const C3 := C2.(batches := [], ok := ROWS, imported := 1, results := 1)

  const AGAIN := TaskError(0, ROWS, true, false)
  const RESULT := Result(0, 1)

  // The states after each event.
  const S1 := State([C0], [[0]], [None], 1, false, [[], []], None, 0, 0, multiset{})
  const S2 := S1.(inbox := [[]], current := [Some(0)])
  const S3 := S2.(chunks := [C1])
  const S4 := S2.(chunks := [C2], out := [[AGAIN], []])
  const S5 := S2.(chunks := [C3], out := [[AGAIN, RESULT], []])
  const S6 := S5.(feederDone := true, out := [[AGAIN, RESULT], [Fed(1)]])
  const S7 := S6.(out := [[RESULT], [Fed(1)]], errFile := ROWS)
  const S8 := S7.(out := [[], [Fed(1)]], pending := 1)
  const S9 := S8.(out := [[], []], feeding := Some(1))
  const S10 := S9.(total := 1, pending := 0)

  ghost predicate Steps(s: State, e: Event, t: State) {
    Shaped(CFG, s) && Enabled(CFG, s, e) && Apply(CFG, s, e) == t
  }

  lemma Sent()
    ensures Steps(Init(CFG), SendChunk(0, ROWS), S1) && Steps(S1, TakeChunk(0), S2)
  {
    var t := Apply(CFG, Init(CFG), SendChunk(0, ROWS));
    assert t.chunks == S1.chunks && t.current == S1.current;
    assert t.inbox[0] == [0] && t.out[0] == [] && t.out[1] == [];
    assert t.inbox == S1.inbox && t.out == S1.out;
    assert S1.inbox[0][1..] == [];
    assert S1.inbox[0 := []] == S2.inbox && S1.current[0 := Some(0)] == S2.current;
  }

  lemma Submitted()
    ensures Steps(S2, SubmitBatch(0, ROWS), S3)
  {
    assert OnSubmit(C0, ROWS) == Effect(C1, []);
    assert S2.out[0] + [] == [] && S2.out[0 := []] == S2.out;
    assert S2.chunks[0 := C1] == S3.chunks;
  }

  lemma Retried()
    ensures Steps(S3, BatchFails(0, 0, false, true, true), S4)
  {
    assert C1.batches[0 := Batch(ROWS, 2, 2)] == C2.batches;
    assert OnFailure(CFG, 0, C1, 0, false, true, true) == Effect(C2, [AGAIN]);
    assert S3.out[0] + [AGAIN] == [AGAIN] && S3.out[0 := [AGAIN]] == S4.out && S3.chunks[0 := C2] == S4.chunks;
  }

  lemma Inserted()
    ensures Steps(S4, BatchSucceeds(0, 0), S5)
  {
    assert OnSuccess(0, C2, 0) == Effect(C3, [RESULT]);
    assert S4.out[0] + [RESULT] == [AGAIN, RESULT];
    assert S4.out[0 := [AGAIN, RESULT]] == S5.out && S4.chunks[0 := C3] == S5.chunks;
  }

  lemma Received()
    ensures Steps(S5, FinishFeeding, S6) && Steps(S6, Deliver(0), S7) && Steps(S7, Deliver(0), S8)
  {
    assert S5.out[1] + [Fed(1)] == [Fed(1)] && S5.out[1 := [Fed(1)]] == S6.out;
    assert S6.out[0][1..] == [RESULT] && S6.out[0 := [RESULT]] == S7.out;
    assert S7.out[0][1..] == [] && S7.out[0 := []] == S8.out;
  }

  lemma Exited()
    ensures Steps(S8, Deliver(1), S9) && Steps(S9, FlushMeter, S10)
  {
    assert S8.out[1][1..] == [] && S8.out[1 := []] == S9.out;
  }

  /** The events lead from `s` to the last state. */
  ghost predicate Leads(s: State, es: seq<Event>) {
    Possible(CFG, s, es) && After(CFG, s, es) == S10
  }

  lemma First(s: State, e: Event, t: State, es: seq<Event>)
    requires Steps(s, e, t) && Leads(t, es)
    ensures Leads(s, [e] + es)
  {
    assert ([e] + es)[1..] == es;
  }

  lemma FromFailure() returns (es: seq<Event>)
    ensures Leads(S3, es)
  {
    Retried();
    Inserted();
    Received();
    Exited();
    First(S9, FlushMeter, S10, []);
    First(S8, Deliver(1), S9, [FlushMeter] + []);
    es := [Deliver(1)] + ([FlushMeter] + []);
    First(S7, Deliver(0), S8, es);
    es := [Deliver(0)] + es;
    First(S6, Deliver(0), S7, es);
    es := [Deliver(0)] + es;
    First(S5, FinishFeeding, S6, es);
    es := [FinishFeeding] + es;
    First(S4, BatchSucceeds(0, 0), S5, es);
    es := [BatchSucceeds(0, 0)] + es;
    First(S3, BatchFails(0, 0, false, true, true), S4, es);
    es := [BatchFails(0, 0, false, true, true)] + es;
  }

  lemma InsertedRowInErrorFile() returns (es: seq<Event>)
    ensures Possible(CFG, Init(CFG), es) && Finished(After(CFG, Init(CFG), es))
    ensures After(CFG, Init(CFG), es).errFile == multiset{7}
    ensures FailedRows(After(CFG, Init(CFG), es).chunks) == multiset{}
  {
    Sent();
    Submitted();
    es := FromFailure();
    First(S2, SubmitBatch(0, ROWS), S3, es);
    es := [SubmitBatch(0, ROWS)] + es;
    First(S1, TakeChunk(0), S2, es);
    es := [TakeChunk(0)] + es;
    First(Init(CFG), SendChunk(0, ROWS), S1, es);
    es := [SendChunk(0, ROWS)] + es;
    assert FailedRows(S10.chunks) == C3.failed + FailedRows([]);
  }
}
