/** COPY TO always can finish: a measure falls with every step but the arrival of a page, and while a
    range is outstanding such a step is possible.
 */
module ExportProgress {
  import opened Common
  import opened ExportProtocol

  function Weight(p: Phase): nat {
    match p
    case Queued => 5
    case Querying => 4
    case Ending => 1
    case _ => 0
  }

  /** What a range may still cause: its remaining attempts and the rest of the current one. */
  function RangeLeft(cfg: Config, i: Info, p: Phase): nat {
    6 * (if i.attempts < AttemptLimit(cfg) then AttemptLimit(cfg) - i.attempts else 0) + Weight(p)
  }

  function RangesLeft(cfg: Config, info: seq<Info>, phase: seq<Phase>): nat
    requires |info| == |phase|
  {
    if info == [] then 0 else RangeLeft(cfg, info[0], phase[0]) + RangesLeft(cfg, info[1..], phase[1..])
  }

  ghost function Measure(cfg: Config, s: State): nat
    requires Shaped(cfg, s)
  {
    RangesLeft(cfg, s.info, s.phase) + TotalLength(s.out)
  }

  lemma {:induction false} RangesUpdate(cfg: Config, info: seq<Info>, phase: seq<Phase>, r: nat, i: Info, p: Phase)
    requires r < |info| == |phase|
    ensures RangesLeft(cfg, info[r := i], phase[r := p]) + RangeLeft(cfg, info[r], phase[r]) ==
            RangesLeft(cfg, info, phase) + RangeLeft(cfg, i, p)
  {
    if r == 0 {
      assert info[0 := i][1..] == info[1..] && phase[0 := p][1..] == phase[1..];
    } else {
      RangesUpdate(cfg, info[1..], phase[1..], r - 1, i, p);
      assert info[r := i][1..] == info[1..][r - 1 := i] && phase[r := p][1..] == phase[1..][r - 1 := p];
    }
  }

  // ---- every step but a page lowers the measure ----

  lemma ConnectFalls(cfg: Config, s: State, w: nat)
    requires Inv(cfg, s) && w < cfg.workers && s.work[w] != []
    ensures Shaped(cfg, Apply(cfg, s, Connect(w))) && Shaped(cfg, Apply(cfg, s, ConnectFails(w)))
    ensures Measure(cfg, Apply(cfg, s, Connect(w))) < Measure(cfg, s)
    ensures Measure(cfg, Apply(cfg, s, ConnectFails(w))) < Measure(cfg, s)
  {
    var r := s.work[w][0];
    HeadQueued(cfg, s, w);
    StepInv(cfg, s, Connect(w));
    StepInv(cfg, s, ConnectFails(w));
    RangesUpdate(cfg, s.info, s.phase, r, s.info[r], Querying);
    RangesUpdate(cfg, s.info, s.phase, r, s.info[r], Ending);
    assert s.info[r := s.info[r]] == s.info;
    TotalLengthUpdate(s.out, w, s.out[w] + [Failed(r)]);
  }

  lemma ProduceChanges(cfg: Config, s: State, r: nat, data: seq<Row>, ending: seq<Msg>, phase: Phase)
    requires Shaped(cfg, s) && r < |s.info| && s.phase[r] == Querying
    requires Shaped(cfg, Produce(s, r, data, ending, phase))
    ensures Measure(cfg, Produce(s, r, data, ending, phase)) + 4 <= Measure(cfg, s) + Weight(phase) + 1 + |ending|
  {
    var w, pages := s.info[r].workerno, Pages(r, s.info[r].attempts, data);
    RangesUpdate(cfg, s.info, s.phase, r, s.info[r], phase);
    assert s.info[r := s.info[r]] == s.info;
    TotalLengthUpdate(s.out, w, s.out[w] + (pages + ending));
  }

  lemma HandleFalls(cfg: Config, s: State, m: Msg)
    requires Shaped(cfg, s) && m.range < |s.info| && Shaped(cfg, Handle(cfg, s, m))
    ensures Measure(cfg, Handle(cfg, s, m)) <= Measure(cfg, s)
  {
    var r := m.range;
    var was := s.info[r];
    match m
    case Finished(_) =>
      RangesUpdate(cfg, s.info, s.phase, r, was, Succeeded);
      assert s.info[r := was] == s.info;
    case Failed(_) =>
      if was.attempts < cfg.maxAttempts && was.rows == 0 {
        var i := NextWorker(cfg, was.workerno);
        assert SendWork(cfg, s, [r]) == Send(s, r, i) by {
          assert [r][1..] == [];
          assert SendAll(cfg, Send(s, r, i), [], if i < cfg.workers - 1 then i + 1 else 0) == Send(s, r, i);
        }
        RangesUpdate(cfg, s.info, s.phase, r, Info(was.attempts + 1, was.rows, i), Queued);
      } else {
        RangesUpdate(cfg, s.info, s.phase, r, was, GivenUp);
        assert s.info[r := was] == s.info;
      }
    case Page(_, _, data) =>
      RangesUpdate(cfg, s.info, s.phase, r, was.(rows := was.rows + |data|), s.phase[r]);
      assert s.phase[r := s.phase[r]] == s.phase;
  }

  lemma ReceiveFalls(cfg: Config, s: State, w: nat)
    requires Inv(cfg, s) && Enabled(cfg, s, Receive(w))
    ensures Shaped(cfg, Apply(cfg, s, Receive(w))) && Measure(cfg, Apply(cfg, s, Receive(w))) < Measure(cfg, s)
  {
    StepInv(cfg, s, Receive(w));
    var popped := s.(out := s.out[w := s.out[w][1..]]);
    TotalLengthUpdate(s.out, w, s.out[w][1..]);
    assert Shaped(cfg, popped);
    HandleFalls(cfg, popped, s.out[w][0]);
  }

  lemma StepFalls(cfg: Config, s: State, e: Event)
    requires Inv(cfg, s) && Enabled(cfg, s, e)
    ensures Inv(cfg, Apply(cfg, s, e))
    ensures Measure(cfg, Apply(cfg, s, e)) <= if e.PageArrives? then Measure(cfg, s) + 1 else Measure(cfg, s) - 1
  {
    StepInv(cfg, s, e);
    match e
    case Connect(w) => ConnectFalls(cfg, s, w);
    case ConnectFails(w) => ConnectFalls(cfg, s, w);
    case PageArrives(r, data) => ProduceChanges(cfg, s, r, data, [], Querying);
    case LastPage(r, data) => ProduceChanges(cfg, s, r, data, [Finished(r)], Ending);
    case QueryFails(r) => ProduceChanges(cfg, s, r, [], [Failed(r)], Ending);
    case Receive(w) => ReceiveFalls(cfg, s, w);
  }

  // ---- while a range is outstanding something else can happen ----

  predicate Settled(p: Phase) {
    p == Succeeded || p == GivenUp
  }

  lemma {:induction false} SomeOutstanding(ps: seq<Phase>) returns (r: nat)
    requires Outstanding(ps) > 0
    ensures r < |ps| && !Settled(ps[r])
  {
    if !Settled(ps[0]) {
      r := 0;
    } else {
      r := SomeOutstanding(ps[1..]);
      r := r + 1;
    }
  }

  /** The loop condition of export_records is false. */
  predicate Done(s: State) {
    s.succeeded + s.failed >= |s.info|
  }

  lemma CanStep(cfg: Config, s: State) returns (e: Event)
    requires Inv(cfg, s) && !Done(s)
    ensures Enabled(cfg, s, e) && !e.PageArrives?
  {
    PhasesPartition(s.phase);
    var r := SomeOutstanding(s.phase);
    assert RangeOk(cfg, s, r);
    var w := s.info[r].workerno;
    if s.phase[r] == Queued {
      assert Count(s.work[w], r) == 1;
      e := Connect(w);
    } else if s.phase[r] == Querying {
      e := LastPage(r, []);
    } else {
      assert About(s.out[w], r) != [];
      e := Receive(w);
    }
  }

  // ---- runs ----

  function Arrivals(es: seq<Event>): nat {
    if es == [] then 0 else (if es[0].PageArrives? then 1 else 0) + Arrivals(es[1..])
  }

  /** No run goes on for ever without pages arriving: its other steps are bounded by the measure. */
  lemma {:induction false} StepsBounded(cfg: Config, s: State, es: seq<Event>)
    requires Inv(cfg, s) && Possible(cfg, s, es)
    ensures |es| <= Measure(cfg, s) + 2 * Arrivals(es)
    decreases |es|
  {
    if es != [] {
      StepFalls(cfg, s, es[0]);
      StepsBounded(cfg, Apply(cfg, s, es[0]), es[1..]);
    }
  }

  lemma {:induction false} CanFinish(cfg: Config, s: State) returns (es: seq<Event>)
    requires Inv(cfg, s)
    ensures Possible(cfg, s, es) && Done(After(cfg, s, es)) && Arrivals(es) == 0
    decreases Measure(cfg, s)
  {
    if Done(s) {
      es := [];
    } else {
      var e := CanStep(cfg, s);
      StepFalls(cfg, s, e);
      var rest := CanFinish(cfg, Apply(cfg, s, e));
      es := [e] + rest;
      assert es[1..] == rest;
    }
  }

  lemma {:induction false} RunOn(cfg: Config, s: State, es: seq<Event>, more: seq<Event>)
    requires Possible(cfg, s, es) && Possible(cfg, After(cfg, s, es), more)
    ensures Possible(cfg, s, es + more) && After(cfg, s, es + more) == After(cfg, After(cfg, s, es), more)
    decreases |es|
  {
    if es == [] {
      assert es + more == more;
    } else {
      assert (es + more)[0] == es[0] && (es + more)[1..] == es[1..] + more;
      RunOn(cfg, Apply(cfg, s, es[0]), es[1..], more);
    }
  }

  /** Every run can be continued, without any further page, to the parent's own exit. */
  lemma ExportCanFinish(cfg: Config, n: nat, es: seq<Event>) returns (more: seq<Event>)
    requires cfg.workers > 0 && n > 0 && Possible(cfg, Init(cfg, n), es)
    ensures Possible(cfg, Init(cfg, n), es + more) && Done(After(cfg, Init(cfg, n), es + more)) && Arrivals(more) == 0
  {
    InitInv(cfg, n);
    RunInv(cfg, Init(cfg, n), es);
    more := CanFinish(cfg, After(cfg, Init(cfg, n), es));
    RunOn(cfg, Init(cfg, n), es, more);
  }
}
