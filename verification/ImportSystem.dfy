/** All processes of COPY FROM together, and what holds over every run. */
module ImportSystem {
  import opened Common
  import opened ImportProtocol

  /** `out` has one channel to the parent per worker, and the feeder's as the last one. `total` and
      `pending` are the parent meter's total_records and current_record. */
  datatype State = State(
    chunks: seq<Chunk>, inbox: seq<seq<nat>>, current: seq<Option<nat>>,
    sent: nat, feederDone: bool, out: seq<seq<Msg>>,
    feeding: Option<nat>, pending: nat, total: nat, errFile: Rows)

  datatype Event =
    | SendChunk(w: nat, rows: Rows)
    | FinishFeeding
    | TakeChunk(w: nat)
    | ReportRows(w: nat, rows: Rows, parse: bool)
    | SubmitBatch(w: nat, rows: Rows)
    | EndChunk(w: nat)
    | BatchSucceeds(k: nat, b: nat)
    | BatchFails(k: nat, b: nat, timedOut: bool, parse: bool, canMake: bool)
    | Deliver(w: nat)
    | FlushMeter

  function Init(cfg: Config): State {
    State(
      [], seq(cfg.workers, _ => []), seq(cfg.workers, _ => None),
      0, false, seq(cfg.workers + 1, _ => []),
      None, 0, 0, multiset{})
  }

  /** Static shape: the right number of channels, and chunk numbers that exist. */
  ghost predicate Shaped(cfg: Config, s: State) {
    && |s.inbox| == |s.current| == cfg.workers && |s.out| == cfg.workers + 1
    && (forall k :: 0 <= k < |s.chunks| ==> s.chunks[k].worker < cfg.workers)
    && (forall w, i :: 0 <= w < |s.inbox| && 0 <= i < |s.inbox[w]| ==> s.inbox[w][i] < |s.chunks|)
    && (forall w :: 0 <= w < |s.current| && s.current[w].Some? ==> s.current[w].value < |s.chunks|)
  }

  /** The chunk worker `w` is dispatching, and rows of it that are not yet dispatched. */
  ghost predicate Dispatching(cfg: Config, s: State, w: nat, rows: Rows)
    requires Shaped(cfg, s)
  {
    && w < cfg.workers && s.current[w].Some?
    && rows != multiset{} && rows <= s.chunks[s.current[w].value].todo
  }

  ghost predicate Enabled(cfg: Config, s: State, e: Event)
    requires Shaped(cfg, s)
  {
    match e
    case SendChunk(w, rows) => w < cfg.workers && !s.feederDone && rows != multiset{}
    case FinishFeeding => !s.feederDone
    case TakeChunk(w) => w < cfg.workers && s.current[w].None? && s.inbox[w] != []
    case ReportRows(w, rows, _) => Dispatching(cfg, s, w, rows)
    case SubmitBatch(w, rows) => Dispatching(cfg, s, w, rows)
    case EndChunk(w) => w < cfg.workers && s.current[w].Some? && s.chunks[s.current[w].value].todo == multiset{}
    case BatchSucceeds(k, b) => k < |s.chunks| && b < |s.chunks[k].batches|
    case BatchFails(k, b, _, _, _) => k < |s.chunks| && b < |s.chunks[k].batches|
    case Deliver(w) => w < |s.out| && s.out[w] != []
    case FlushMeter => true
  }

  /** A worker action on chunk `k`: the chunk changes, and the messages go to its worker's channel. */
  function WorkerStep(s: State, k: nat, e: Effect): State
    requires k < |s.chunks| && s.chunks[k].worker < |s.out|
  {
    var w := s.chunks[k].worker;
    s.(chunks := s.chunks[k := e.chunk], out := s.out[w := s.out[w] + e.msgs])
  }

  /** receive_results, one message at a time. */
  function Receive(s: State, m: Msg): State {
    match m
    case Result(_, imported) => s.(pending := s.pending + imported)
    case TaskError(_, _, _, _) => s.(errFile := s.errFile + ErrorOf(m))
    case Fed(sent) => s.(feeding := Some(sent))
  }

  /** A chunk on its way to worker `w`. */
  function NewChunk(w: nat, rows: Rows): Chunk {
    Chunk(w, rows, 0, rows, [], multiset{}, multiset{}, multiset{}, 0)
  }

  ghost function Apply(cfg: Config, s: State, e: Event): State
    requires Shaped(cfg, s) && Enabled(cfg, s, e)
  {
    match e
    case SendChunk(w, rows) =>
      s.(chunks := s.chunks + [NewChunk(w, rows)],
         inbox := s.inbox[w := s.inbox[w] + [|s.chunks|]],
         sent := s.sent + |rows|)
    case FinishFeeding =>
      s.(feederDone := true, out := s.out[cfg.workers := s.out[cfg.workers] + [Fed(s.sent)]])
    case TakeChunk(w) =>
      s.(inbox := s.inbox[w := s.inbox[w][1..]], current := s.current[w := Some(s.inbox[w][0])])
    case ReportRows(w, rows, parse) =>
      var k := s.current[w].value;
      WorkerStep(s, k, OnReport(k, s.chunks[k], rows, parse))
    case SubmitBatch(w, rows) =>
      var k := s.current[w].value;
      WorkerStep(s, k, OnSubmit(s.chunks[k], rows))
    case EndChunk(w) => s.(current := s.current[w := None])
    case BatchSucceeds(k, b) => WorkerStep(s, k, OnSuccess(k, s.chunks[k], b))
    case BatchFails(k, b, timedOut, parse, canMake) =>
      WorkerStep(s, k, OnFailure(cfg, k, s.chunks[k], b, timedOut, parse, canMake))
    case Deliver(w) => Receive(s.(out := s.out[w := s.out[w][1..]]), s.out[w][0])
    case FlushMeter => s.(total := s.total + s.pending, pending := 0)
  }

  // ---- sums ----

  function SentRows(cs: seq<Chunk>): nat {
    if cs == [] then 0 else |cs[0].rows| + SentRows(cs[1..])
  }

  function ReportedRows(cs: seq<Chunk>): nat {
    if cs == [] then 0 else |cs[0].rows| * cs[0].results + ReportedRows(cs[1..])
  }

  function LostRows(cs: seq<Chunk>): Rows {
    if cs == [] then multiset{} else cs[0].failed + cs[0].recounted + LostRows(cs[1..])
  }

  function AllResults(out: seq<seq<Msg>>): nat {
    if out == [] then 0 else ResultRows(out[0]) + AllResults(out[1..])
  }

  function AllErrors(out: seq<seq<Msg>>): Rows {
    if out == [] then multiset{} else ErrorRows(out[0]) + AllErrors(out[1..])
  }

  lemma {:induction false} AllResultsUpdate(out: seq<seq<Msg>>, w: nat, ch: seq<Msg>)
    requires w < |out|
    ensures AllResults(out[w := ch]) + ResultRows(out[w]) == AllResults(out) + ResultRows(ch)
  {
    if w == 0 {
      assert out[0 := ch][1..] == out[1..];
    } else {
      AllResultsUpdate(out[1..], w - 1, ch);
      assert out[w := ch][1..] == out[1..][w - 1 := ch];
    }
  }

  lemma {:induction false} AllErrorsUpdate(out: seq<seq<Msg>>, w: nat, ch: seq<Msg>)
    requires w < |out|
    ensures AllErrors(out[w := ch]) + ErrorRows(out[w]) == AllErrors(out) + ErrorRows(ch)
  {
    if w == 0 {
      assert out[0 := ch][1..] == out[1..];
    } else {
      AllErrorsUpdate(out[1..], w - 1, ch);
      assert out[w := ch][1..] == out[1..][w - 1 := ch];
      SumAssoc(ErrorRows(out[0]), AllErrors(out[1..][w - 1 := ch]), ErrorRows(out[w]));
    }
  }

  lemma {:induction false} ChunkUpdate(cs: seq<Chunk>, k: nat, c: Chunk)
    requires k < |cs| && c.rows == cs[k].rows && cs[k].results <= c.results
    ensures SentRows(cs[k := c]) == SentRows(cs)
    ensures ReportedRows(cs[k := c]) == ReportedRows(cs) + |c.rows| * (c.results - cs[k].results)
  {
    if k == 0 {
      assert cs[0 := c][1..] == cs[1..];
    } else {
      ChunkUpdate(cs[1..], k - 1, c);
      assert cs[k := c][1..] == cs[1..][k - 1 := c];
    }
  }

  lemma {:induction false} LostUpdate(cs: seq<Chunk>, k: nat, c: Chunk, more: Rows)
    requires k < |cs| && more + cs[k].failed + cs[k].recounted == c.failed + c.recounted
    ensures LostRows(cs[k := c]) == LostRows(cs) + more
  {
    if k == 0 {
      assert cs[0 := c][1..] == cs[1..];
    } else {
      LostUpdate(cs[1..], k - 1, c, more);
      assert cs[k := c][1..] == cs[1..][k - 1 := c];
      SumAssoc(cs[0].failed + cs[0].recounted, LostRows(cs[1..]), more);
    }
  }

  lemma {:induction false} ChunkAdd(cs: seq<Chunk>, c: Chunk)
    requires c.results == 0 && c.failed == c.recounted == multiset{}
    ensures SentRows(cs + [c]) == SentRows(cs) + |c.rows|
    ensures ReportedRows(cs + [c]) == ReportedRows(cs)
    ensures LostRows(cs + [c]) == LostRows(cs)
  {
    if cs == [] {
      assert (cs + [c])[1..] == [];
    } else {
      ChunkAdd(cs[1..], c);
      assert (cs + [c])[1..] == cs[1..] + [c];
    }
  }

  // ---- the invariant ----

  ghost predicate ChunksOk(cfg: Config, s: State) {
    forall k :: 0 <= k < |s.chunks| ==> ChunkOk(cfg, s.chunks[k])
  }

  /** Nothing sent, counted or lost goes astray between the chunks, the channels and the parent. */
  ghost predicate Balanced(s: State) {
    && s.sent == SentRows(s.chunks)
    && s.total + s.pending + AllResults(s.out) == ReportedRows(s.chunks)
    && s.errFile + AllErrors(s.out) == LostRows(s.chunks)
  }

  ghost predicate FeedOk(s: State) {
    s.feeding.Some? ==> s.feederDone && s.feeding.value == s.sent
  }

  ghost predicate ResultAfter(ch: seq<Msg>, i: nat, k: nat) {
    exists j :: i < j < |ch| && ch[j].Result? && ch[j].chunk == k
  }

  /** The feeder's channel carries the final count. A worker message travels on its chunk's
      channel, and an error about a chunk already reported complete still has that report behind it. */
  ghost predicate MsgOk(cfg: Config, s: State, w: nat, i: nat)
    requires w < |s.out| && i < |s.out[w]|
  {
    var m := s.out[w][i];
    if w == cfg.workers then m.Fed? && s.feederDone && m.sent == s.sent
    else
      && !m.Fed? && m.chunk < |s.chunks| && s.chunks[m.chunk].worker == w
      && (m.Result? ==> m.imported == |s.chunks[m.chunk].rows|)
      && (m.TaskError? && s.chunks[m.chunk].results > 0 ==> ResultAfter(s.out[w], i, m.chunk))
  }

  ghost predicate MsgsOk(cfg: Config, s: State) {
    forall w, i :: 0 <= w < |s.out| && 0 <= i < |s.out[w]| ==> MsgOk(cfg, s, w, i)
  }

  ghost predicate Inv(cfg: Config, s: State) {
    Shaped(cfg, s) && ChunksOk(cfg, s) && Balanced(s) && FeedOk(s) && MsgsOk(cfg, s)
  }

  /** The counts of sent and of reported rows. */
  lemma WorkerStepCounts(s: State, k: nat, e: Effect)
    requires Balanced(s) && k < |s.chunks| && s.chunks[k].worker < |s.out| && EffectOk(k, s.chunks[k], e)
    ensures
      var t := WorkerStep(s, k, e);
      t.sent == SentRows(t.chunks) && t.total + t.pending + AllResults(t.out) == ReportedRows(t.chunks)
  {
    var w := s.chunks[k].worker;
    ChunkUpdate(s.chunks, k, e.chunk);
    AllResultsUpdate(s.out, w, s.out[w] + e.msgs);
    ResultRowsConcat(s.out[w], e.msgs);
  }

  /** The rows on their way to the error file. */
  lemma WorkerStepErrors(s: State, k: nat, e: Effect)
    requires Balanced(s) && k < |s.chunks| && s.chunks[k].worker < |s.out| && EffectOk(k, s.chunks[k], e)
    ensures
      var t := WorkerStep(s, k, e);
      t.errFile + AllErrors(t.out) == LostRows(t.chunks)
  {
    var w := s.chunks[k].worker;
    LostUpdate(s.chunks, k, e.chunk, ErrorRows(e.msgs));
    AllErrorsUpdate(s.out, w, s.out[w] + e.msgs);
    ErrorRowsConcat(s.out[w], e.msgs);
    Shift(AllErrors(WorkerStep(s, k, e).out), ErrorRows(s.out[w]), AllErrors(s.out), ErrorRows(e.msgs), s.errFile);
  }

  lemma WorkerStepBalanced(s: State, k: nat, e: Effect)
    requires Balanced(s) && k < |s.chunks| && s.chunks[k].worker < |s.out| && EffectOk(k, s.chunks[k], e)
    ensures Balanced(WorkerStep(s, k, e))
  {
    WorkerStepCounts(s, k, e);
    WorkerStepErrors(s, k, e);
  }

  lemma Shift(after: Rows, here: Rows, before: Rows, more: Rows, base: Rows)
    requires after + here == before + (here + more)
    ensures base + after == base + before + more
  {
    forall r
      ensures after[r] == before[r] + more[r]
    {
      assert (after + here)[r] == after[r] + here[r];
      assert (before + (here + more))[r] == before[r] + here[r] + more[r];
    }
    assert after == before + more;
    SumAssoc(base, before, more);
  }

  /** A message already in a channel stays in order when a worker speaks about chunk `k`. */
  lemma OldMsg(cfg: Config, s: State, k: nat, e: Effect, w: nat, i: nat)
    requires MsgsOk(cfg, s) && k < |s.chunks| && s.chunks[k].worker < cfg.workers < |s.out|
        && EffectOk(k, s.chunks[k], e)
    requires w < |s.out| && i < |s.out[w]|
    ensures MsgOk(cfg, WorkerStep(s, k, e), w, i)
  {
    var t, m := WorkerStep(s, k, e), s.out[w][i];
    assert MsgOk(cfg, s, w, i);
    assert forall j :: 0 <= j < |s.out[w]| ==> t.out[w][j] == s.out[w][j];
    if w != cfg.workers && m.TaskError? {
      if s.chunks[m.chunk].results > 0 {
        var j :| i < j < |s.out[w]| && s.out[w][j].Result? && s.out[w][j].chunk == m.chunk;
        assert t.out[w][j] == s.out[w][j];
      } else if t.chunks[m.chunk].results > 0 {
        assert t.out[w][|t.out[w]| - 1] == e.msgs[|e.msgs| - 1];
      }
    }
  }

  lemma NewMsg(cfg: Config, s: State, k: nat, e: Effect, i: nat)
    requires k < |s.chunks| && s.chunks[k].worker < cfg.workers < |s.out| && EffectOk(k, s.chunks[k], e)
    requires i < |e.msgs|
    ensures MsgOk(cfg, WorkerStep(s, k, e), s.chunks[k].worker, |s.out[s.chunks[k].worker]| + i)
  {
    var t, w := WorkerStep(s, k, e), s.chunks[k].worker;
    assert t.out[w][|s.out[w]| + i] == e.msgs[i];
    assert t.out[w][|t.out[w]| - 1] == e.msgs[|e.msgs| - 1];
  }

  lemma WorkerStepMsgs(cfg: Config, s: State, k: nat, e: Effect)
    requires Inv(cfg, s) && k < |s.chunks| && EffectOk(k, s.chunks[k], e)
    ensures FeedOk(WorkerStep(s, k, e)) && MsgsOk(cfg, WorkerStep(s, k, e))
  {
    var t := WorkerStep(s, k, e);
    forall w, i | 0 <= w < |t.out| && 0 <= i < |t.out[w]|
      ensures MsgOk(cfg, t, w, i)
    {
      if i < |s.out[w]| {
        OldMsg(cfg, s, k, e, w, i);
      } else {
        NewMsg(cfg, s, k, e, i - |s.out[w]|);
      }
    }
  }

  lemma WorkerStepInv(cfg: Config, s: State, k: nat, e: Effect)
    requires Inv(cfg, s) && k < |s.chunks| && EffectOk(k, s.chunks[k], e) && ChunkOk(cfg, e.chunk)
    ensures Inv(cfg, WorkerStep(s, k, e))
  {
    WorkerStepBalanced(s, k, e);
    WorkerStepMsgs(cfg, s, k, e);
  }

  lemma SendMsgs(cfg: Config, s: State, t: State)
    requires MsgsOk(cfg, s) && (forall k :: 0 <= k < |s.chunks| ==> k < |t.chunks| && t.chunks[k] == s.chunks[k])
    requires t.out == s.out && !s.feederDone
    ensures MsgsOk(cfg, t)
  {
    forall w, i | 0 <= w < |t.out| && 0 <= i < |t.out[w]|
      ensures MsgOk(cfg, t, w, i)
    {
      assert MsgOk(cfg, s, w, i);
    }
  }

  lemma NewChunkOk(cfg: Config, w: nat, rows: Rows)
    requires rows != multiset{}
    ensures ChunkOk(cfg, NewChunk(w, rows))
  {
    assert BatchRows([]) == multiset{};
  }

  lemma SendBalanced(s: State, t: State, c: Chunk)
    requires Balanced(s) && c.results == 0 && c.failed == c.recounted == multiset{}
    requires t == s.(chunks := s.chunks + [c], inbox := t.inbox, sent := s.sent + |c.rows|)
    ensures Balanced(t)
  {
    ChunkAdd(s.chunks, c);
  }

  lemma SendShaped(cfg: Config, s: State, w: nat, rows: Rows)
    requires Shaped(cfg, s) && Enabled(cfg, s, SendChunk(w, rows))
    ensures Shaped(cfg, Apply(cfg, s, SendChunk(w, rows)))
  {
  }

  lemma SendChunksOk(cfg: Config, s: State, t: State, c: Chunk)
    requires ChunksOk(cfg, s) && t.chunks == s.chunks + [c] && ChunkOk(cfg, c)
    ensures ChunksOk(cfg, t)
  {
  }

  lemma SendInv(cfg: Config, s: State, w: nat, rows: Rows)
    requires Inv(cfg, s) && Enabled(cfg, s, SendChunk(w, rows))
    ensures Inv(cfg, Apply(cfg, s, SendChunk(w, rows)))
  {
    var t := Apply(cfg, s, SendChunk(w, rows));
    SendShaped(cfg, s, w, rows);
    SendMsgs(cfg, s, t);
    NewChunkOk(cfg, w, rows);
    SendChunksOk(cfg, s, t, NewChunk(w, rows));
    SendBalanced(s, t, NewChunk(w, rows));
  }

  lemma FinishBalanced(cfg: Config, s: State)
    requires Shaped(cfg, s) && Balanced(s) && !s.feederDone
    ensures Balanced(Apply(cfg, s, FinishFeeding))
  {
    var t, w := Apply(cfg, s, FinishFeeding), cfg.workers;
    OneMsg(Fed(s.sent));
    ResultRowsConcat(s.out[w], [Fed(s.sent)]);
    ErrorRowsConcat(s.out[w], [Fed(s.sent)]);
    AllResultsUpdate(s.out, w, t.out[w]);
    AllErrorsUpdate(s.out, w, t.out[w]);
    Shift(AllErrors(t.out), ErrorRows(s.out[w]), AllErrors(s.out), multiset{}, s.errFile);
  }

  lemma FinishInv(cfg: Config, s: State)
    requires Inv(cfg, s) && !s.feederDone
    ensures Inv(cfg, Apply(cfg, s, FinishFeeding))
  {
    var t := Apply(cfg, s, FinishFeeding);
    FinishBalanced(cfg, s);
    forall v, i | 0 <= v < |t.out| && 0 <= i < |t.out[v]|
      ensures MsgOk(cfg, t, v, i)
    {
      if i < |s.out[v]| {
        assert MsgOk(cfg, s, v, i);
      }
    }
  }

  lemma DeliverErrors(out: seq<seq<Msg>>, w: nat, base: Rows)
    requires w < |out| && out[w] != []
    ensures base + ErrorOf(out[w][0]) + AllErrors(out[w := out[w][1..]]) == base + AllErrors(out)
  {
    var rest := out[w][1..];
    AllErrorsUpdate(out, w, rest);
    Unshift(base, AllErrors(out[w := rest]), ErrorOf(out[w][0]), ErrorRows(rest), AllErrors(out));
  }

  /** What receiving a message leaves alone. */
  lemma ReceiveKeeps(s: State, m: Msg)
    ensures var t := Receive(s, m);
      && t.chunks == s.chunks && t.out == s.out && t.sent == s.sent && t.feederDone == s.feederDone
      && t.inbox == s.inbox && t.current == s.current && t.errFile == s.errFile + ErrorOf(m)
      && (t.feeding == s.feeding || (m.Fed? && t.feeding == Some(m.sent)))
  {
    assert s.errFile + multiset{} == s.errFile;
  }

  lemma DeliverBalanced(s: State, w: nat)
    requires Balanced(s) && w < |s.out| && s.out[w] != []
    ensures Balanced(Receive(s.(out := s.out[w := s.out[w][1..]]), s.out[w][0]))
  {
    AllResultsUpdate(s.out, w, s.out[w][1..]);
    DeliverErrors(s.out, w, s.errFile);
    ReceiveKeeps(s.(out := s.out[w := s.out[w][1..]]), s.out[w][0]);
  }

  lemma DeliverMsg(cfg: Config, s: State, t: State, w: nat, v: nat, i: nat)
    requires MsgsOk(cfg, s) && w < |s.out| && s.out[w] != [] && v < |s.out|
    requires t.out == s.out[w := s.out[w][1..]] && t.chunks == s.chunks && t.sent == s.sent
        && t.feederDone == s.feederDone
    requires i < |t.out[v]|
    ensures MsgOk(cfg, t, v, i)
  {
    var d := if v == w then 1 else 0;
    assert t.out[v] == s.out[v][d..];
    var m := t.out[v][i];
    assert m == s.out[v][i + d];
    assert MsgOk(cfg, s, v, i + d);
    if v != cfg.workers && m.TaskError? && s.chunks[m.chunk].results > 0 {
      var h :| i + d < h < |s.out[v]| && s.out[v][h].Result? && s.out[v][h].chunk == m.chunk;
      assert t.out[v][h - d] == s.out[v][h];
    }
  }

  lemma DeliverMsgs(cfg: Config, s: State, t: State, w: nat)
    requires MsgsOk(cfg, s) && w < |s.out| && s.out[w] != []
    requires t.out == s.out[w := s.out[w][1..]] && t.chunks == s.chunks && t.sent == s.sent
        && t.feederDone == s.feederDone
    ensures MsgsOk(cfg, t)
  {
    forall v, i | 0 <= v < |t.out|
        && 0 <= i < |t.out[v]| ensures MsgOk(cfg, t, v, i) { DeliverMsg(cfg, s, t, w, v, i); }
  }

  lemma DeliverInv(cfg: Config, s: State, w: nat)
    requires Inv(cfg, s) && w < |s.out| && s.out[w] != []
    ensures Inv(cfg, Apply(cfg, s, Deliver(w)))
  {
    var t := Apply(cfg, s, Deliver(w));
    assert MsgOk(cfg, s, w, 0);
    DeliverBalanced(s, w);
    ReceiveKeeps(s.(out := s.out[w := s.out[w][1..]]), s.out[w][0]);
    DeliverMsgs(cfg, s, t, w);
  }

  lemma Unshift(base: Rows, after: Rows, m: Rows, rest: Rows, before: Rows)
    requires after + (m + rest) == before + rest
    ensures base + m + after == base + before
  {
    forall r
      ensures after[r] + m[r] == before[r]
    {
      assert (after + (m + rest))[r] == after[r] + m[r] + rest[r];
      assert (before + rest)[r] == before[r] + rest[r];
    }
    assert m + after == before;
    SumAssoc(base, m, after);
  }

  /** A step that moves no message and changes no chunk. */
  lemma QuietInv(cfg: Config, s: State, t: State)
    requires Inv(cfg, s) && Shaped(cfg, t)
    requires t.chunks == s.chunks && t.out == s.out && t.sent == s.sent && t.feederDone == s.feederDone
    requires t.feeding == s.feeding && t.errFile == s.errFile && t.total + t.pending == s.total + s.pending
    ensures Inv(cfg, t)
  {
    forall w, i | 0 <= w < |t.out| && 0 <= i < |t.out[w]|
      ensures MsgOk(cfg, t, w, i)
    {
      assert MsgOk(cfg, s, w, i);
    }
  }

  lemma ReportInv(cfg: Config, s: State, w: nat, rows: Rows, parse: bool)
    requires Inv(cfg, s) && Dispatching(cfg, s, w, rows)
    ensures Inv(cfg, Apply(cfg, s, ReportRows(w, rows, parse)))
  {
    var k := s.current[w].value;
    var e := OnReport(k, s.chunks[k], rows, parse);
    assert EffectOk(k, s.chunks[k], e) && ChunkOk(cfg, e.chunk) by {
      ReportOk(cfg, k, s.chunks[k], rows, parse);
    }
    WorkerStepInv(cfg, s, k, e);
    WorkerSteps(cfg, s, ReportRows(w, rows, parse), k, e);
  }

  lemma SubmitInv(cfg: Config, s: State, w: nat, rows: Rows)
    requires Inv(cfg, s) && Dispatching(cfg, s, w, rows)
    ensures Inv(cfg, Apply(cfg, s, SubmitBatch(w, rows)))
  {
    var k := s.current[w].value;
    var e := OnSubmit(s.chunks[k], rows);
    assert EffectOk(k, s.chunks[k], e) && ChunkOk(cfg, e.chunk) by {
      SubmitOk(cfg, k, s.chunks[k], rows);
    }
    WorkerStepInv(cfg, s, k, e);
    WorkerSteps(cfg, s, SubmitBatch(w, rows), k, e);
  }

  lemma SuccessInv(cfg: Config, s: State, k: nat, b: nat)
    requires Inv(cfg, s) && k < |s.chunks| && b < |s.chunks[k].batches|
    ensures Inv(cfg, Apply(cfg, s, BatchSucceeds(k, b)))
  {
    var e := OnSuccess(k, s.chunks[k], b);
    assert EffectOk(k, s.chunks[k], e) && ChunkOk(cfg, e.chunk) by {
      SuccessOk(cfg, k, s.chunks[k], b);
    }
    WorkerStepInv(cfg, s, k, e);
    WorkerSteps(cfg, s, BatchSucceeds(k, b), k, e);
  }

  lemma FailureInv(cfg: Config, s: State, k: nat, b: nat, timedOut: bool, parse: bool, canMake: bool)
    requires Inv(cfg, s) && k < |s.chunks| && b < |s.chunks[k].batches|
    ensures Inv(cfg, Apply(cfg, s, BatchFails(k, b, timedOut, parse, canMake)))
  {
    var e := OnFailure(cfg, k, s.chunks[k], b, timedOut, parse, canMake);
    assert EffectOk(k, s.chunks[k], e) && ChunkOk(cfg, e.chunk) by {
      FailureOk(cfg, k, s.chunks[k], b, timedOut, parse, canMake);
    }
    WorkerStepInv(cfg, s, k, e);
    WorkerSteps(cfg, s, BatchFails(k, b, timedOut, parse, canMake), k, e);
  }

  /** The event is the worker action on chunk `k` with effect `e`. */
  ghost predicate WorkerEvent(cfg: Config, s: State, event: Event, k: nat, e: Effect)
    requires Shaped(cfg, s) && Enabled(cfg, s, event) && k < |s.chunks|
  {
    match event
    case ReportRows(w, rows, parse) => s.current[w] == Some(k) && e == OnReport(k, s.chunks[k], rows, parse)
    case SubmitBatch(w, rows) => s.current[w] == Some(k) && e == OnSubmit(s.chunks[k], rows)
    case BatchSucceeds(c, b) => c == k && e == OnSuccess(k, s.chunks[k], b)
    case BatchFails(c, b, timedOut, parse, canMake) =>
      c == k && e == OnFailure(cfg, k, s.chunks[k], b, timedOut, parse, canMake)
    case _ => false
  }

  lemma WorkerSteps(cfg: Config, s: State, event: Event, k: nat, e: Effect)
    requires Shaped(cfg, s) && Enabled(cfg, s, event) && k < |s.chunks| && WorkerEvent(cfg, s, event, k, e)
    ensures Apply(cfg, s, event) == WorkerStep(s, k, e)
  {
  }

  /** Every step keeps the invariant. */
  lemma StepInv(cfg: Config, s: State, e: Event)
    requires Inv(cfg, s) && Enabled(cfg, s, e)
    ensures Inv(cfg, Apply(cfg, s, e))
  {
    match e
    case SendChunk(w, rows) => SendInv(cfg, s, w, rows);
    case FinishFeeding => FinishInv(cfg, s);
    case TakeChunk(w) => TakeInv(cfg, s, w);
    case ReportRows(w, rows, parse) => ReportInv(cfg, s, w, rows, parse);
    case SubmitBatch(w, rows) => SubmitInv(cfg, s, w, rows);
    case EndChunk(w) => QuietInv(cfg, s, Apply(cfg, s, e));
    case BatchSucceeds(k, b) => SuccessInv(cfg, s, k, b);
    case BatchFails(k, b, timedOut, parse, canMake) => FailureInv(cfg, s, k, b, timedOut, parse, canMake);
    case Deliver(w) => DeliverInv(cfg, s, w);
    case FlushMeter => QuietInv(cfg, s, Apply(cfg, s, e));
  }

  lemma TakeInv(cfg: Config, s: State, w: nat)
    requires Inv(cfg, s) && Enabled(cfg, s, TakeChunk(w))
    ensures Inv(cfg, Apply(cfg, s, TakeChunk(w)))
  {
    QuietInv(cfg, s, Apply(cfg, s, TakeChunk(w)));
  }

  lemma {:induction false} NoMessages(out: seq<seq<Msg>>)
    requires forall w :: 0 <= w < |out| ==> out[w] == []
    ensures AllResults(out) == 0 && AllErrors(out) == multiset{}
  {
    if out != [] { NoMessages(out[1..]); }
  }

  lemma InitInv(cfg: Config)
    ensures Inv(cfg, Init(cfg))
  {
    NoMessages(Init(cfg).out);
  }

  // ---- runs ----

  /** The events can happen one after the other from `s`. */
  ghost predicate Possible(cfg: Config, s: State, es: seq<Event>)
    decreases |es|
  {
    es == [] || (Shaped(cfg, s) && Enabled(cfg, s, es[0]) && Possible(cfg, Apply(cfg, s, es[0]), es[1..]))
  }

  ghost function After(cfg: Config, s: State, es: seq<Event>): State
    requires Possible(cfg, s, es)
    decreases |es|
  {
    if es == [] then s else After(cfg, Apply(cfg, s, es[0]), es[1..])
  }

  lemma {:induction false} RunInv(cfg: Config, s: State, es: seq<Event>)
    requires Inv(cfg, s) && Possible(cfg, s, es)
    ensures Inv(cfg, After(cfg, s, es))
    decreases |es|
  {
    if es != [] {
      StepInv(cfg, s, es[0]);
      RunInv(cfg, Apply(cfg, s, es[0]), es[1..]);
    }
  }

  /** In every run, for every chunk: each row is undispatched, in flight, inserted or given up,
      exactly once; the count is the number of settled rows and never exceeds the rows sent; the
      completion is reported once, and exactly when the last row is settled; and no batch is
      submitted more often than allowed. */
  lemma ChunkAccounting(cfg: Config, es: seq<Event>, k: nat)
    requires Possible(cfg, Init(cfg), es) && k < |After(cfg, Init(cfg), es).chunks|
    ensures
      var c := After(cfg, Init(cfg), es).chunks[k];
      && c.rows == c.todo + BatchRows(c.batches) + c.ok + c.failed
      && c.imported == |c.ok| + |c.failed| <= |c.rows|
      && c.results <= 1
      && (c.results == 1 <==> c.ok + c.failed == c.rows)
      && (c.results == 1 <==> c.todo == multiset{} && c.batches == [])
      && forall i :: 0 <= i < |c.batches| ==> c.batches[i].submissions <= AttemptLimit(cfg)
  {
    InitInv(cfg);
    RunInv(cfg, Init(cfg), es);
    var c := After(cfg, Init(cfg), es).chunks[k];
    CountBounds(cfg, c);
    forall i | 0 <= i < |c.batches|
      ensures c.batches[i].submissions <= AttemptLimit(cfg)
    {
      assert BatchOk(cfg, c.batches[i]);
    }
  }

  // ---- the parent's exit ----

  /** The loop condition of import_records is false. */
  predicate Finished(s: State) {
    s.feeding.Some? && s.total >= s.feeding.value
  }

  lemma {:induction false} ReportedBound(cfg: Config, cs: seq<Chunk>)
    requires forall k :: 0 <= k < |cs| ==> ChunkOk(cfg, cs[k])
    ensures ReportedRows(cs) <= SentRows(cs)
    ensures ReportedRows(cs) == SentRows(cs) ==> forall k :: 0 <= k < |cs| ==> cs[k].results == 1
  {
    if cs != [] {
      ReportedBound(cfg, cs[1..]);
      assert ChunkOk(cfg, cs[0]);
      assert |cs[0].rows| > 0;
      if ReportedRows(cs) == SentRows(cs) {
        forall k | 0 <= k < |cs|
          ensures cs[k].results == 1
        {
          if k > 0 { assert cs[k] == cs[1..][k - 1]; }
        }
      }
    }
  }

  lemma {:induction false} NoResultRows(ms: seq<Msg>, i: nat)
    requires i < |ms|
    ensures ResultOf(ms[i]) <= ResultRows(ms)
  {
    if i > 0 { NoResultRows(ms[1..], i - 1); }
  }

  lemma {:induction false} ChannelBound(out: seq<seq<Msg>>, w: nat)
    requires w < |out|
    ensures ResultRows(out[w]) <= AllResults(out)
  {
    if w > 0 { ChannelBound(out[1..], w - 1); }
  }

  lemma {:induction false} NoErrorRows(ms: seq<Msg>)
    requires forall i :: 0 <= i < |ms| ==> !ms[i].TaskError?
    ensures ErrorRows(ms) == multiset{}
  {
    if ms != [] { NoErrorRows(ms[1..]); }
  }

  lemma {:induction false} NoErrors(out: seq<seq<Msg>>)
    requires forall w, i :: 0 <= w < |out| && 0 <= i < |out[w]| ==> !out[w][i].TaskError?
    ensures AllErrors(out) == multiset{}
  {
    if out != [] {
      NoErrorRows(out[0]);
      forall w, i | 0 <= w < |out[1..]| && 0 <= i < |out[1..][w]|
        ensures !out[1..][w][i].TaskError?
      {
        assert out[1..][w] == out[w + 1];
      }
      NoErrors(out[1..]);
    }
  }

  /** If the parent loop exits by its own condition, every row the feeder sent has been inserted or
      given up, nothing is in flight, and the error file holds exactly the rows given up plus those
      written when a retried error carried the name of a parse error. */
  lemma ExitMeansSettled(cfg: Config, es: seq<Event>)
    requires Possible(cfg, Init(cfg), es) && Finished(After(cfg, Init(cfg), es))
    ensures
      var s := After(cfg, Init(cfg), es);
      && s.feederDone && s.total == s.sent == SentRows(s.chunks)
      && (forall k :: 0 <= k < |s.chunks| ==>
            s.chunks[k].batches == [] && s.chunks[k].todo == multiset{}
                && s.chunks[k].ok + s.chunks[k].failed == s.chunks[k].rows)
      && s.errFile == LostRows(s.chunks)
  {
    InitInv(cfg);
    RunInv(cfg, Init(cfg), es);
    var s := After(cfg, Init(cfg), es);
    ReportedBound(cfg, s.chunks);
    forall k | 0 <= k < |s.chunks|
      ensures s.chunks[k].batches == [] && s.chunks[k].todo == multiset{}
          && s.chunks[k].ok + s.chunks[k].failed == s.chunks[k].rows
    {
      CountBounds(cfg, s.chunks[k]);
    }
    assert AllResults(s.out) == 0;
    forall w, i | 0 <= w < |s.out| && 0 <= i < |s.out[w]|
      ensures !s.out[w][i].Result? && !s.out[w][i].TaskError?
    {
      NoResultLeft(cfg, s, w, i);
      if s.out[w][i].TaskError? {
        assert MsgOk(cfg, s, w, i);
        var j :| i < j < |s.out[w]| && s.out[w][j].Result? && s.out[w][j].chunk == s.out[w][i].chunk;
        NoResultLeft(cfg, s, w, j);
      }
    }
    NoErrors(s.out);
    assert s.errFile + multiset{} == s.errFile;
  }

  lemma NoResultLeft(cfg: Config, s: State, w: nat, i: nat)
    requires Inv(cfg, s) && AllResults(s.out) == 0 && w < |s.out| && i < |s.out[w]|
    ensures !s.out[w][i].Result?
  {
    var m := s.out[w][i];
    assert MsgOk(cfg, s, w, i);
    assert m.Result? ==> ChunkOk(cfg, s.chunks[m.chunk]);
    assert m.Result? ==> ResultOf(m) > 0;
    ChannelBound(s.out, w);
    NoResultRows(s.out[w], i);
  }

  function FailedRows(cs: seq<Chunk>): Rows {
    if cs == [] then multiset{} else cs[0].failed + FailedRows(cs[1..])
  }

  function RecountedRows(cs: seq<Chunk>): Rows {
    if cs == [] then multiset{} else cs[0].recounted + RecountedRows(cs[1..])
  }

  lemma {:induction false} LostSplits(cs: seq<Chunk>)
    ensures LostRows(cs) == FailedRows(cs) + RecountedRows(cs)
  {
    if cs != [] {
      LostSplits(cs[1..]);
      Swap(cs[0].failed, cs[0].recounted, FailedRows(cs[1..]), RecountedRows(cs[1..]));
    }
  }

  lemma Swap(a: Rows, b: Rows, c: Rows, d: Rows)
    ensures a + b + (c + d) == a + c + (b + d)
  {
  }

  // ---- when the error file holds more than the rows given up ----

  /** A batch fails with an error named like a parse error although it may be tried again. */
  ghost predicate Recounts(cfg: Config, s: State, e: Event)
    requires Shaped(cfg, s) && Enabled(cfg, s, e)
  {
    e.BatchFails? && e.parse && s.chunks[e.k].batches[e.b].attempts < cfg.maxAttempts
  }

  ghost predicate NeverRecounts(cfg: Config, s: State, es: seq<Event>)
    requires Possible(cfg, s, es)
    decreases |es|
  {
    es == [] || (!Recounts(cfg, s, es[0]) && NeverRecounts(cfg, Apply(cfg, s, es[0]), es[1..]))
  }

  lemma {:induction false} RecountedUpdate(cs: seq<Chunk>, k: nat, c: Chunk, more: Rows)
    requires k < |cs| && c.recounted == cs[k].recounted + more
    ensures RecountedRows(cs[k := c]) == RecountedRows(cs) + more
  {
    if k == 0 {
      assert cs[0 := c][1..] == cs[1..];
    } else {
      RecountedUpdate(cs[1..], k - 1, c, more);
      assert cs[k := c][1..] == cs[1..][k - 1 := c];
      SumAssoc(cs[0].recounted, RecountedRows(cs[1..]), more);
    }
  }

  lemma {:induction false} RecountedAdd(cs: seq<Chunk>, c: Chunk)
    requires c.recounted == multiset{}
    ensures RecountedRows(cs + [c]) == RecountedRows(cs)
  {
    if cs == [] {
      assert (cs + [c])[1..] == [];
    } else {
      RecountedAdd(cs[1..], c);
      assert (cs + [c])[1..] == cs[1..] + [c];
    }
  }

  /** What one failing batch adds. */
  lemma FailureRecounts(cfg: Config, k: nat, c: Chunk, b: nat, timedOut: bool, parse: bool, canMake: bool)
    requires ChunkOk(cfg, c) && b < |c.batches|
    ensures OnFailure(cfg, k, c, b, timedOut, parse, canMake).chunk.recounted ==
            c.recounted + if parse && c.batches[b].attempts < cfg.maxAttempts then c.batches[b].rows else multiset{}
  {
    FailureOk(cfg, k, c, b, timedOut, parse, canMake);
    assert c.recounted + multiset{} == c.recounted;
  }

  ghost function RecountedBy(cfg: Config, s: State, e: Event): Rows
    requires Shaped(cfg, s) && Enabled(cfg, s, e)
  {
    if Recounts(cfg, s, e) then s.chunks[e.k].batches[e.b].rows else multiset{}
  }

  lemma WorkerRecounts(s: State, k: nat, e: Effect, more: Rows)
    requires k < |s.chunks| && s.chunks[k].worker < |s.out| && e.chunk.recounted == s.chunks[k].recounted + more
    ensures RecountedRows(WorkerStep(s, k, e).chunks) == RecountedRows(s.chunks) + more
  {
    RecountedUpdate(s.chunks, k, e.chunk, more);
  }

  lemma FailureStepRecounts(cfg: Config, s: State, e: Event)
    requires Inv(cfg, s) && Enabled(cfg, s, e) && e.BatchFails?
    ensures RecountedRows(Apply(cfg, s, e).chunks) == RecountedRows(s.chunks) + RecountedBy(cfg, s, e)
  {
    var effect := OnFailure(cfg, e.k, s.chunks[e.k], e.b, e.timedOut, e.parse, e.canMake);
    assert effect.chunk.recounted == s.chunks[e.k].recounted + RecountedBy(cfg, s, e) by {
      FailureRecounts(cfg, e.k, s.chunks[e.k], e.b, e.timedOut, e.parse, e.canMake);
    }
    WorkerSteps(cfg, s, e, e.k, effect);
    WorkerRecounts(s, e.k, effect, RecountedBy(cfg, s, e));
  }

  /** The other worker actions add nothing. */
  lemma QuietRecounts(cfg: Config, s: State, e: Event, k: nat, effect: Effect)
    requires Shaped(cfg, s) && Enabled(cfg, s, e) && k < |s.chunks| && !e.BatchFails?
    requires WorkerEvent(cfg, s, e, k, effect) && effect.chunk.recounted == s.chunks[k].recounted
    ensures RecountedRows(Apply(cfg, s, e).chunks) == RecountedRows(s.chunks) + RecountedBy(cfg, s, e)
  {
    assert s.chunks[k].recounted + multiset{} == s.chunks[k].recounted;
    WorkerSteps(cfg, s, e, k, effect);
    WorkerRecounts(s, k, effect, multiset{});
  }

  lemma SendRecounts(cfg: Config, s: State, w: nat, rows: Rows)
    requires Shaped(cfg, s) && Enabled(cfg, s, SendChunk(w, rows))
    ensures RecountedRows(Apply(cfg, s, SendChunk(w, rows)).chunks) == RecountedRows(s.chunks)
  {
    RecountedAdd(s.chunks, NewChunk(w, rows));
  }

  /** The remaining events leave the chunks alone. */
  lemma ChunksKept(cfg: Config, s: State, e: Event)
    requires Shaped(cfg, s) && Enabled(cfg, s, e)
    requires e.FinishFeeding? || e.TakeChunk? || e.EndChunk? || e.Deliver? || e.FlushMeter?
    ensures Apply(cfg, s, e).chunks == s.chunks
  {
  }

  lemma ReportRecounts(cfg: Config, s: State, w: nat, rows: Rows, parse: bool)
    requires Shaped(cfg, s) && Enabled(cfg, s, ReportRows(w, rows, parse))
    ensures var e := ReportRows(w, rows, parse);
      RecountedRows(Apply(cfg, s, e).chunks) == RecountedRows(s.chunks) + RecountedBy(cfg, s, e)
  {
    var k := s.current[w].value;
    QuietRecounts(cfg, s, ReportRows(w, rows, parse), k, OnReport(k, s.chunks[k], rows, parse));
  }

  lemma SubmitRecounts(cfg: Config, s: State, w: nat, rows: Rows)
    requires Shaped(cfg, s) && Enabled(cfg, s, SubmitBatch(w, rows))
    ensures var e := SubmitBatch(w, rows);
      RecountedRows(Apply(cfg, s, e).chunks) == RecountedRows(s.chunks) + RecountedBy(cfg, s, e)
  {
    var k := s.current[w].value;
    QuietRecounts(cfg, s, SubmitBatch(w, rows), k, OnSubmit(s.chunks[k], rows));
  }

  lemma SuccessRecounts(cfg: Config, s: State, k: nat, b: nat)
    requires Shaped(cfg, s) && Enabled(cfg, s, BatchSucceeds(k, b))
    ensures var e := BatchSucceeds(k, b);
      RecountedRows(Apply(cfg, s, e).chunks) == RecountedRows(s.chunks) + RecountedBy(cfg, s, e)
  {
    QuietRecounts(cfg, s, BatchSucceeds(k, b), k, OnSuccess(k, s.chunks[k], b));
  }

  lemma StepRecounts(cfg: Config, s: State, e: Event)
    requires Inv(cfg, s) && Enabled(cfg, s, e)
    ensures RecountedRows(Apply(cfg, s, e).chunks) == RecountedRows(s.chunks) + RecountedBy(cfg, s, e)
  {
    assert RecountedRows(s.chunks) + multiset{} == RecountedRows(s.chunks);
    if e.SendChunk? {
      SendRecounts(cfg, s, e.w, e.rows);
    } else if e.BatchFails? {
      FailureStepRecounts(cfg, s, e);
    } else if e.ReportRows? {
      ReportRecounts(cfg, s, e.w, e.rows, e.parse);
    } else if e.SubmitBatch? {
      SubmitRecounts(cfg, s, e.w, e.rows);
    } else if e.BatchSucceeds? {
      SuccessRecounts(cfg, s, e.k, e.b);
    } else {
      ChunksKept(cfg, s, e);
    }
  }

  lemma {:induction false} RunRecounts(cfg: Config, s: State, es: seq<Event>)
    requires Inv(cfg, s) && Possible(cfg, s, es)
    ensures RecountedRows(After(cfg, s, es).chunks) == multiset{} <==>
            RecountedRows(s.chunks) == multiset{} && NeverRecounts(cfg, s, es)
    decreases |es|
  {
    if es != [] {
      var e, t := es[0], Apply(cfg, s, es[0]);
      StepInv(cfg, s, e);
      StepRecounts(cfg, s, e);
      assert |RecountedRows(t.chunks)| == |RecountedRows(s.chunks)| + |RecountedBy(cfg, s, e)|;
      if Recounts(cfg, s, e) {
        assert ChunkOk(cfg, s.chunks[e.k]) && BatchOk(cfg, s.chunks[e.k].batches[e.b]);
      }
      RunRecounts(cfg, t, es[1..]);
    }
  }

  /** On such an exit the error file is exactly the rows given up, if and only if no batch failed
      with an error named like a parse error while it had attempts left. */
  lemma ErrorFileExact(cfg: Config, es: seq<Event>)
    requires Possible(cfg, Init(cfg), es) && Finished(After(cfg, Init(cfg), es))
    ensures
      var s := After(cfg, Init(cfg), es);
      s.errFile == FailedRows(s.chunks) <==> NeverRecounts(cfg, Init(cfg), es)
  {
    ExitMeansSettled(cfg, es);
    InitInv(cfg);
    RunRecounts(cfg, Init(cfg), es);
    var s := After(cfg, Init(cfg), es);
    LostSplits(s.chunks);
    var f, r := FailedRows(s.chunks), RecountedRows(s.chunks);
    assert |f + r| == |f| + |r|;
  }
}
