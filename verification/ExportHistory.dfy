/** What the parent of COPY TO concludes, told from the messages of a run alone. */
module ExportHistory {
  import opened Common
  import opened ExportProtocol

  // ---- messages sent and received ----

  /** The messages an event puts on a channel: a page unless it is empty, and the end of an attempt. */
  ghost function SentBy(cfg: Config, s: State, e: Event): seq<Msg>
    requires Shaped(cfg, s) && Enabled(cfg, s, e)
  {
    match e
    case Connect(_) => []
    case ConnectFails(w) => [Failed(s.work[w][0])]
    case PageArrives(r, data) => if data == [] then [] else [Page(r, s.info[r].attempts, data)]
    case LastPage(r, data) =>
      (if data == [] then [] else [Page(r, s.info[r].attempts, data)]) + [Finished(r)]
    case QueryFails(r) => [Failed(r)]
    case Receive(_) => []
  }

  /** The message an event takes off a channel. */
  ghost function ReceivedBy(cfg: Config, s: State, e: Event): seq<Msg>
    requires Shaped(cfg, s) && Enabled(cfg, s, e)
  {
    if e.Receive? then [s.out[e.w][0]] else []
  }

  ghost function SentOver(cfg: Config, s: State, es: seq<Event>): seq<Msg>
    requires Possible(cfg, s, es)
    decreases |es|
  {
    if es == [] then [] else SentBy(cfg, s, es[0]) + SentOver(cfg, Apply(cfg, s, es[0]), es[1..])
  }

  ghost function ReceivedOver(cfg: Config, s: State, es: seq<Event>): seq<Msg>
    requires Possible(cfg, s, es)
    decreases |es|
  {
    if es == [] then [] else ReceivedBy(cfg, s, es[0]) + ReceivedOver(cfg, Apply(cfg, s, es[0]), es[1..])
  }

  /** The messages about a range that are under way. */
  ghost function UnderWay(s: State, r: nat): seq<Msg> {
    if r < |s.info| && 0 <= s.info[r].workerno < |s.out| then About(s.out[s.info[r].workerno], r) else []
  }

  /** Messages that the worker of range `q` puts on its channel. */
  lemma Pushed(cfg: Config, s: State, t: State, q: nat, msgs: seq<Msg>, r: nat)
    requires Shaped(cfg, s) && q < |s.info| && r < |s.info| && s.phase[q] != Unsent && s.phase[r] != Unsent
    requires forall i :: 0 <= i < |msgs| ==> msgs[i].range == q
    requires var w := s.info[q].workerno; t.out == s.out[w := s.out[w] + msgs]
    requires t.info == s.info && RangeOk(cfg, s, r)
    ensures UnderWay(t, r) == UnderWay(s, r) + About(msgs, r)
  {
    PushMsgs(s.out, s.info[q].workerno, msgs, q, s.info[r].workerno, r);
    AboutOwn(msgs, q, r);
  }

  // ---- the parent's three ways to react ----

  /** The state in which the message at the head of channel `w` has been taken off. */
  function Popped(s: State, w: nat): State
    requires w < |s.out| && s.out[w] != []
  {
    s.(out := s.out[w := s.out[w][1..]])
  }

  /** A failed attempt is repeated. */
  predicate Repeated(cfg: Config, s: State, r: nat)
    requires r < |s.info|
  {
    s.info[r].attempts < cfg.maxAttempts && s.info[r].rows == 0
  }

  lemma ReceiveIs(cfg: Config, s: State, w: nat)
    requires Inv(cfg, s) && Enabled(cfg, s, Receive(w))
    ensures
      var t, m := Apply(cfg, s, Receive(w)), s.out[w][0];
      match m
      case Page(_, _, _) => t == PageWritten(s, w)
      case Finished(q) => t == Popped(s, w).(succeeded := s.succeeded + 1, phase := s.phase[q := Succeeded])
      case Failed(q) =>
        if Repeated(cfg, s, q) then t == Send(Popped(s, w), q, NextWorker(cfg, w))
        else t == Popped(s, w).(failed := s.failed + 1, phase := s.phase[q := GivenUp])
  {
    var m := s.out[w][0];
    HeadOwner(cfg, s, w);
    if m.Failed? && Repeated(cfg, s, m.range) {
      assert [m.range][1..] == [];
      assert Handle(cfg, Popped(s, w), m) == SendAll(cfg, Popped(s, w), [m.range], NextWorker(cfg, w));
    }
  }

  /** What receiving does to the channels, and to who has which range. */
  lemma ReceiveOut(cfg: Config, s: State, w: nat)
    requires Inv(cfg, s) && Enabled(cfg, s, Receive(w))
    ensures
      var t, m := Apply(cfg, s, Receive(w)), s.out[w][0];
      && t.out == s.out[w := s.out[w][1..]] && |t.info| == |s.info|
      && (forall r :: 0 <= r < |s.info| && (r != m.range || m.Page?) ==> t.info[r].workerno == s.info[r].workerno)
      && (t.info[m.range].workerno == w || t.info[m.range].workerno == NextWorker(cfg, w))
  {
    ReceiveIs(cfg, s, w);
    HeadOwner(cfg, s, w);
  }

  /** Taking a message off its channel. */
  lemma ReceivedAbout(cfg: Config, s: State, w: nat, r: nat)
    requires Inv(cfg, s) && Enabled(cfg, s, Receive(w)) && r < |s.info|
    ensures UnderWay(s, r) == About([s.out[w][0]], r) + UnderWay(Apply(cfg, s, Receive(w)), r)
  {
    var t, m := Apply(cfg, s, Receive(w)), s.out[w][0];
    ReceiveOut(cfg, s, w);
    AboutOwn([m], m.range, r);
    assert RangeOk(cfg, s, r);
    if r == m.range && !m.Page? {
      EndReceived(cfg, s, w);
    } else {
      HeadOwner(cfg, s, w);
      PopMsg(s.out, w, s.info[r].workerno, r);
    }
  }

  /** Behind the end of an attempt nothing about the range is under way. */
  lemma EndReceived(cfg: Config, s: State, w: nat)
    requires Inv(cfg, s) && Enabled(cfg, s, Receive(w)) && !s.out[w][0].Page?
    ensures
      var r := s.out[w][0].range;
      UnderWay(s, r) == [s.out[w][0]] && UnderWay(Apply(cfg, s, Receive(w)), r) == []
  {
    var t, m := Apply(cfg, s, Receive(w)), s.out[w][0];
    ReceiveOut(cfg, s, w);
    HeadOwner(cfg, s, w);
    assert RangeOk(cfg, s, m.range);
    PopMsg(s.out, w, t.info[m.range].workerno, m.range);
  }

  /** What a querying worker sends. */
  lemma ProducedAbout(cfg: Config, s: State, e: Event, r: nat)
    requires Inv(cfg, s) && Enabled(cfg, s, e) && (e.PageArrives? || e.LastPage? || e.QueryFails?) && r < |s.info|
    ensures UnderWay(Apply(cfg, s, e), r) == UnderWay(s, r) + About(SentBy(cfg, s, e), r)
  {
    var sent := SentBy(cfg, s, e);
    assert [] + sent == sent && sent + [] == sent;
    assert RangeOk(cfg, s, r);
    Pushed(cfg, s, Apply(cfg, s, e), e.r, sent, r);
  }

  lemma RefusedAbout(cfg: Config, s: State, w: nat, r: nat)
    requires Inv(cfg, s) && Enabled(cfg, s, ConnectFails(w)) && r < |s.info|
    ensures UnderWay(Apply(cfg, s, ConnectFails(w)), r) == UnderWay(s, r) + About([Failed(s.work[w][0])], r)
  {
    assert RangeOk(cfg, s, r);
    HeadQueued(cfg, s, w);
    Pushed(cfg, s, Apply(cfg, s, ConnectFails(w)), s.work[w][0], [Failed(s.work[w][0])], r);
  }

  /** Nothing overtakes or disappears: what an event sends is under way until it is received. */
  lemma StepMessages(cfg: Config, s: State, e: Event, r: nat)
    requires Inv(cfg, s) && Enabled(cfg, s, e) && r < |s.info|
    ensures UnderWay(s, r) + About(SentBy(cfg, s, e), r) ==
            About(ReceivedBy(cfg, s, e), r) + UnderWay(Apply(cfg, s, e), r)
  {
    match e
    case Connect(w) =>
    case ConnectFails(w) => RefusedAbout(cfg, s, w, r);
    case Receive(w) => ReceivedAbout(cfg, s, w, r);
    case _ => ProducedAbout(cfg, s, e, r);
  }

  lemma {:induction false} RunMessages(cfg: Config, s: State, es: seq<Event>, r: nat)
    requires Inv(cfg, s) && Possible(cfg, s, es) && r < |s.info|
    ensures UnderWay(s, r) + About(SentOver(cfg, s, es), r) ==
            About(ReceivedOver(cfg, s, es), r) + UnderWay(After(cfg, s, es), r)
    decreases |es|
  {
    if es == [] {
      assert UnderWay(s, r) + [] == UnderWay(s, r);
    } else {
      var e, t, rest := es[0], Apply(cfg, s, es[0]), es[1..];
      StepInv(cfg, s, e);
      StepKeepsRanges(cfg, s, e);
      StepMessages(cfg, s, e, r);
      RunMessages(cfg, t, rest, r);
      AboutConcat(SentBy(cfg, s, e), SentOver(cfg, t, rest), r);
      AboutConcat(ReceivedBy(cfg, s, e), ReceivedOver(cfg, t, rest), r);
      Exchange(UnderWay(s, r), About(SentBy(cfg, s, e), r), About(ReceivedBy(cfg, s, e), r), UnderWay(t, r),
               About(SentOver(cfg, t, rest), r), About(ReceivedOver(cfg, t, rest), r),
               UnderWay(After(cfg, s, es), r));
    }
  }

  lemma Exchange(u: seq<Msg>, a: seq<Msg>, b: seq<Msg>, v: seq<Msg>, c: seq<Msg>, d: seq<Msg>, x: seq<Msg>)
    requires u + a == b + v && v + c == d + x
    ensures u + (a + c) == b + d + x
  {
    Regroup(u, a, c);
    Regroup(b, v, c);
    Regroup(b, d, x);
  }

  // ---- what the parent makes of the messages about one range ----

  function Failures(h: seq<Msg>): nat {
    if h == [] then 0 else (if h[0].Failed? then 1 else 0) + Failures(h[1..])
  }

  function PagesIn(h: seq<Msg>): seq<Msg> {
    if h == [] then [] else (if h[0].Page? then [h[0]] else []) + PagesIn(h[1..])
  }

  /** The last message says that the range is done. */
  predicate Done(h: seq<Msg>) {
    h != [] && h[|h| - 1].Finished?
  }

  /** The last message is a failure, and it is one too many or came after rows. */
  predicate Lost(cfg: Config, h: seq<Msg>) {
    h != [] && h[|h| - 1].Failed? && (Failures(h) >= cfg.maxAttempts || RowCount(h) > 0)
  }

  lemma {:induction false} HistoryGrows(h: seq<Msg>, m: Msg)
    ensures Failures(h + [m]) == Failures(h) + if m.Failed? then 1 else 0
    ensures RowCount(h + [m]) == RowCount(h) + if m.Page? then |m.data| else 0
    ensures PagesIn(h + [m]) == PagesIn(h) + if m.Page? then [m] else []
  {
    if h == [] {
      assert [] + [m] == [m] && [m][1..] == [];
    } else {
      HistoryGrows(h[1..], m);
      assert (h + [m])[0] == h[0] && (h + [m])[1..] == h[1..] + [m];
    }
  }

  predicate Settled(p: Phase) {
    p == Succeeded || p == GivenUp
  }

  /** The parent's record of range `r`, with the pages it has written, says what the messages `h`
      about the range say. */
  ghost predicate Verdict(cfg: Config, r: nat, info: Info, phase: Phase, pages: seq<Msg>, h: seq<Msg>)
    requires cfg.workers > 0
  {
    && (phase == Succeeded <==> Done(h))
    && (phase == GivenUp <==> Lost(cfg, h))
    && info.rows == RowCount(h)
    && info.attempts == Failures(h) + (if Lost(cfg, h) then 0 else 1)
    && info.workerno == (r + info.attempts - 1) % cfg.workers
    && pages == PagesIn(h)
  }

  ghost predicate Judged(cfg: Config, s: State, r: nat, h: seq<Msg>)
    requires r < |s.info| == |s.phase| && cfg.workers > 0
  {
    Verdict(cfg, r, s.info[r], s.phase[r], About(s.written, r), h)
  }

  lemma PageVerdict(cfg: Config, r: nat, info: Info, phase: Phase, pages: seq<Msg>, h: seq<Msg>, m: Msg)
    requires cfg.workers > 0 && Verdict(cfg, r, info, phase, pages, h) && !Settled(phase) && m.Page?
    ensures Verdict(cfg, r, info.(rows := info.rows + |m.data|), phase, pages + [m], h + [m])
  {
    HistoryGrows(h, m);
  }

  lemma FinishedVerdict(cfg: Config, r: nat, info: Info, phase: Phase, pages: seq<Msg>, h: seq<Msg>, m: Msg)
    requires cfg.workers > 0 && Verdict(cfg, r, info, phase, pages, h) && !Settled(phase) && m.Finished?
    ensures Verdict(cfg, r, info, Succeeded, pages, h + [m])
  {
    HistoryGrows(h, m);
  }

  lemma FailedVerdict(cfg: Config, r: nat, info: Info, phase: Phase, pages: seq<Msg>, h: seq<Msg>, m: Msg)
    requires cfg.workers > 0 && Verdict(cfg, r, info, phase, pages, h) && !Settled(phase) && m.Failed?
    ensures
      if info.attempts < cfg.maxAttempts && info.rows == 0
      then Verdict(cfg, r, Info(info.attempts + 1, info.rows, NextWorker(cfg, info.workerno)), Queued, pages, h + [m])
      else Verdict(cfg, r, info, GivenUp, pages, h + [m])
  {
    HistoryGrows(h, m);
    NextRound(cfg, r + info.attempts - 1);
  }

  /** Messages and steps that are not about the range do not change the judgement. */
  lemma JudgedStill(cfg: Config, s: State, t: State, r: nat, h: seq<Msg>)
    requires r < |s.info| == |s.phase| == |t.info| == |t.phase| && cfg.workers > 0 && Judged(cfg, s, r, h)
    requires t.info[r] == s.info[r] && About(t.written, r) == About(s.written, r)
    requires t.phase[r] == s.phase[r] || (!Settled(t.phase[r]) && !Settled(s.phase[r]))
    ensures Judged(cfg, t, r, h)
  {
  }

  lemma AboutSnoc(ms: seq<Msg>, m: Msg, r: nat)
    ensures About(ms + [m], r) == if m.range == r then About(ms, r) + [m] else About(ms, r)
  {
    AboutConcat(ms, [m], r);
    AboutOwn([m], m.range, r);
  }

  lemma JudgedOwn(cfg: Config, s: State, w: nat, h: seq<Msg>)
    requires Inv(cfg, s) && Enabled(cfg, s, Receive(w)) && Judged(cfg, s, s.out[w][0].range, h)
    ensures
      var q, t := s.out[w][0].range, Apply(cfg, s, Receive(w));
      q < |t.info| == |t.phase| && Judged(cfg, t, q, h + [s.out[w][0]])
  {
    var m := s.out[w][0];
    var q := m.range;
    var info, phase, pages := s.info[q], s.phase[q], About(s.written, q);
    HeadOwner(cfg, s, w);
    ReceiveIs(cfg, s, w);
    match m
    case Page(_, _, _) =>
      PageVerdict(cfg, q, info, phase, pages, h, m);
      AboutSnoc(s.written, m, q);
    case Finished(_) => FinishedVerdict(cfg, q, info, phase, pages, h, m);
    case Failed(_) => FailedVerdict(cfg, q, info, phase, pages, h, m);
  }

  /** Round robin. */
  lemma NextRound(cfg: Config, x: nat)
    requires cfg.workers > 0
    ensures NextWorker(cfg, x % cfg.workers) == (x + 1) % cfg.workers
  {
    var n := cfg.workers;
    var q, i := x / n, x % n;
    assert x == q * n + i;
    if i == n - 1 {
      assert x + 1 == (q + 1) * n;
      DividesAs(x + 1, q + 1, n, 0);
    } else {
      DividesAs(x + 1, q, n, i + 1);
    }
  }

  lemma StepJudged(cfg: Config, s: State, e: Event, r: nat, h: seq<Msg>)
    requires Inv(cfg, s) && Enabled(cfg, s, e) && r < |s.info| && Judged(cfg, s, r, h)
    ensures
      var t := Apply(cfg, s, e);
      r < |t.info| == |t.phase| && Judged(cfg, t, r, h + About(ReceivedBy(cfg, s, e), r))
  {
    var t := Apply(cfg, s, e);
    StepKeepsRanges(cfg, s, e);
    StepInv(cfg, s, e);
    assert h + [] == h;
    if !e.Receive? {
      QuietPhase(cfg, s, e, r);
      JudgedStill(cfg, s, t, r, h);
    } else {
      var m := s.out[e.w][0];
      AboutOwn([m], m.range, r);
      if r != m.range {
        OtherReceived(cfg, s, e.w, r);
        JudgedStill(cfg, s, t, r, h);
      } else {
        JudgedOwn(cfg, s, e.w, h);
      }
    }
  }

  /** Only the parent settles a range. */
  lemma QuietPhase(cfg: Config, s: State, e: Event, r: nat)
    requires Inv(cfg, s) && Enabled(cfg, s, e) && r < |s.info| && !e.Receive?
    ensures
      var t := Apply(cfg, s, e);
      && t.info == s.info && t.written == s.written && |t.phase| == |s.phase|
      && (t.phase[r] == s.phase[r] || (!Settled(t.phase[r]) && !Settled(s.phase[r])))
  {
    if e.Connect? || e.ConnectFails? { HeadQueued(cfg, s, e.w); }
  }

  lemma OtherReceived(cfg: Config, s: State, w: nat, r: nat)
    requires Inv(cfg, s) && Enabled(cfg, s, Receive(w)) && r < |s.info| && r != s.out[w][0].range
    ensures
      var t := Apply(cfg, s, Receive(w));
      && |t.info| == |t.phase| == |s.info| && t.info[r] == s.info[r] && t.phase[r] == s.phase[r]
      && About(t.written, r) == About(s.written, r)
  {
    var m := s.out[w][0];
    ReceiveIs(cfg, s, w);
    AboutSnoc(s.written, m, r);
  }

  lemma {:induction false} RunJudged(cfg: Config, s: State, es: seq<Event>, r: nat, h: seq<Msg>)
    requires Inv(cfg, s) && Possible(cfg, s, es) && r < |s.info| && Judged(cfg, s, r, h)
    ensures
      var t := After(cfg, s, es);
      r < |t.info| == |t.phase| && Judged(cfg, t, r, h + About(ReceivedOver(cfg, s, es), r))
    decreases |es|
  {
    if es == [] {
      assert h + [] == h;
    } else {
      var e, t, rest := es[0], Apply(cfg, s, es[0]), es[1..];
      StepInv(cfg, s, e);
      StepJudged(cfg, s, e, r, h);
      RunJudged(cfg, t, rest, r, h + About(ReceivedBy(cfg, s, e), r));
      AboutConcat(ReceivedBy(cfg, s, e), ReceivedOver(cfg, t, rest), r);
      Regroup(h, About(ReceivedBy(cfg, s, e), r), About(ReceivedOver(cfg, t, rest), r));
    }
  }

  // ---- the start ----

  /** Sending the ranges from `j` on, in turn to the workers. */
  lemma {:induction false} SentInTurn(cfg: Config, s: State, j: nat)
    requires cfg.workers > 0 && Shaped(cfg, s) && j <= |s.info|
    ensures
      var t := SendAll(cfg, s, AllRanges(|s.info|)[j..], j % cfg.workers);
      && |t.info| == |t.phase| == |s.info|
      && t.out == s.out && t.written == s.written && t.succeeded == s.succeeded && t.failed == s.failed
      && (forall r :: 0 <= r < j ==> t.info[r] == s.info[r] && t.phase[r] == s.phase[r])
      && (forall r :: j <= r < |s.info| ==>
            t.phase[r] == Queued && t.info[r] == Info(s.info[r].attempts + 1, s.info[r].rows, r % cfg.workers))
    decreases |s.info| - j
  {
    var rs := AllRanges(|s.info|)[j..];
    if j < |s.info| {
      assert rs[0] == j && rs[1..] == AllRanges(|s.info|)[j + 1..];
      NextRound(cfg, j);
      SentInTurn(cfg, Send(s, j, j % cfg.workers), j + 1);
    }
  }

  lemma InitJudged(cfg: Config, n: nat, r: nat)
    requires cfg.workers > 0 && r < n
    ensures var s := Init(cfg, n);
      |s.info| == |s.phase| == n && Judged(cfg, s, r, []) && UnderWay(s, r) == [] && s.succeeded == s.failed == 0
  {
    var blank := Blank(cfg, n);
    assert AllRanges(n)[0..] == AllRanges(n);
    SentInTurn(cfg, blank, 0);
    assert blank.out[r % cfg.workers] == [];
  }

  // ---- the counters ----

  lemma {:induction false} CountSnoc(ps: seq<Phase>, p: Phase, x: Phase)
    ensures CountPhase(ps + [p], x) == CountPhase(ps, x) + if p == x then 1 else 0
  {
    if ps == [] {
      assert [] + [p] == [p] && [p][1..] == [];
    } else {
      CountSnoc(ps[1..], p, x);
      assert (ps + [p])[0] == ps[0] && (ps + [p])[1..] == ps[1..] + [p];
    }
  }

  ghost function InPhase(ps: seq<Phase>, x: Phase): set<nat> {
    set r | 0 <= r < |ps| && ps[r] == x
  }

  lemma InPhaseSnoc(ps: seq<Phase>, p: Phase, x: Phase)
    ensures |InPhase(ps + [p], x)| == |InPhase(ps, x)| + if p == x then 1 else 0
  {
    var before, after := InPhase(ps, x), InPhase(ps + [p], x);
    assert |ps| !in before;
    assert after == if p == x then before + {|ps|} else before;
  }

  lemma {:induction false} CountIsSize(ps: seq<Phase>, x: Phase)
    ensures CountPhase(ps, x) == |InPhase(ps, x)|
    decreases |ps|
  {
    if ps != [] {
      var init, last := ps[..|ps| - 1], ps[|ps| - 1];
      assert ps == init + [last];
      CountSnoc(init, last, x);
      CountIsSize(init, x);
      InPhaseSnoc(init, last, x);
    }
  }

  // ---- the results ----

  ghost function DoneRanges(n: nat, ms: seq<Msg>): set<nat> {
    set r | 0 <= r < n && Done(About(ms, r))
  }

  ghost function LostRanges(cfg: Config, n: nat, ms: seq<Msg>): set<nat> {
    set r | 0 <= r < n && Lost(cfg, About(ms, r))
  }

  lemma SettledAre(cfg: Config, s: State, got: seq<Msg>)
    requires cfg.workers > 0 && |s.info| == |s.phase|
    requires forall r :: 0 <= r < |s.info| ==> Judged(cfg, s, r, About(got, r))
    ensures CountPhase(s.phase, Succeeded) == |DoneRanges(|s.info|, got)|
    ensures CountPhase(s.phase, GivenUp) == |LostRanges(cfg, |s.info|, got)|
  {
    CountIsSize(s.phase, Succeeded);
    CountIsSize(s.phase, GivenUp);
    assert InPhase(s.phase, Succeeded) == DoneRanges(|s.info|, got);
    assert InPhase(s.phase, GivenUp) == LostRanges(cfg, |s.info|, got);
  }

  lemma RunRange(cfg: Config, n: nat, es: seq<Event>, r: nat)
    requires cfg.workers > 0 && r < n && Possible(cfg, Init(cfg, n), es)
    ensures
      var s, got := After(cfg, Init(cfg, n), es), About(ReceivedOver(cfg, Init(cfg, n), es), r);
      && |s.info| == |s.phase| == n && Judged(cfg, s, r, got)
      && got + UnderWay(s, r) == About(SentOver(cfg, Init(cfg, n), es), r)
  {
    var s0 := Init(cfg, n);
    InitInv(cfg, n);
    InitJudged(cfg, n, r);
    RunInv(cfg, s0, es);
    RunJudged(cfg, s0, es, r, []);
    RunMessages(cfg, s0, es, r);
    var got, sent := About(ReceivedOver(cfg, s0, es), r), About(SentOver(cfg, s0, es), r);
    assert [] + got == got && [] + sent == sent;
  }

  /** In every run, for every range: the messages received about it are the first of those sent, in
      order; it has been sent once and once more for every failure received but the one it was given
      up at, each time to the next worker; and what is written of it is the pages received. */
  lemma RangeVerdict(cfg: Config, n: nat, es: seq<Event>, r: nat)
    requires cfg.workers > 0 && r < n && Possible(cfg, Init(cfg, n), es)
    ensures
      var s, h := After(cfg, Init(cfg, n), es), About(ReceivedOver(cfg, Init(cfg, n), es), r);
      && r < |s.info|
      && h <= About(SentOver(cfg, Init(cfg, n), es), r)
      && s.info[r].attempts == Failures(h) + (if Lost(cfg, h) then 0 else 1)
      && s.info[r].workerno == (r + s.info[r].attempts - 1) % cfg.workers
      && About(s.written, r) == PagesIn(h)
  {
    RunRange(cfg, n, es, r);
  }

  /** In every run `succeeded` is the number of ranges for which a Finished has arrived, and `failed`
      the number of ranges whose last message is a failure that is one too many or came after rows. */
  lemma ExportVerdicts(cfg: Config, n: nat, es: seq<Event>)
    requires cfg.workers > 0 && n > 0 && Possible(cfg, Init(cfg, n), es)
    ensures
      var s, got := After(cfg, Init(cfg, n), es), ReceivedOver(cfg, Init(cfg, n), es);
      s.succeeded == |DoneRanges(n, got)| && s.failed == |LostRanges(cfg, n, got)|
  {
    var s, got := After(cfg, Init(cfg, n), es), ReceivedOver(cfg, Init(cfg, n), es);
    InitInv(cfg, n);
    RunInv(cfg, Init(cfg, n), es);
    forall r | 0 <= r < n
      ensures |s.info| == |s.phase| && Judged(cfg, s, r, About(got, r))
    {
      RunRange(cfg, n, es, r);
    }
    SettledAre(cfg, s, got);
  }

  /** All messages about a settled range have been received. */
  lemma SettledReceived(cfg: Config, n: nat, es: seq<Event>, r: nat)
    requires cfg.workers > 0 && r < n && Possible(cfg, Init(cfg, n), es)
    requires var s := After(cfg, Init(cfg, n), es); r < |s.phase| && Settled(s.phase[r])
    ensures
      var sent := About(SentOver(cfg, Init(cfg, n), es), r);
      About(ReceivedOver(cfg, Init(cfg, n), es), r) == sent && (Done(sent) || Lost(cfg, sent))
  {
    var s, got := After(cfg, Init(cfg, n), es), About(ReceivedOver(cfg, Init(cfg, n), es), r);
    RunRange(cfg, n, es, r);
    InitInv(cfg, n);
    RunInv(cfg, Init(cfg, n), es);
    assert RangeOk(cfg, s, r);
    assert got + [] == got;
  }

  /** When the parent's loop ends by its own count, every range is done or lost by what the workers
      sent about it, and the counters say how many are which. */
  lemma ExportOutcome(cfg: Config, n: nat, es: seq<Event>)
    requires cfg.workers > 0 && n > 0 && Possible(cfg, Init(cfg, n), es)
    requires After(cfg, Init(cfg, n), es).succeeded + After(cfg, Init(cfg, n), es).failed >= n
    ensures
      var s, sent := After(cfg, Init(cfg, n), es), SentOver(cfg, Init(cfg, n), es);
      && s.succeeded == |DoneRanges(n, sent)| && s.failed == |LostRanges(cfg, n, sent)|
      && forall r :: 0 <= r < n ==> Done(About(sent, r)) || Lost(cfg, About(sent, r))
  {
    var s0 := Init(cfg, n);
    var got, sent := ReceivedOver(cfg, s0, es), SentOver(cfg, s0, es);
    ExportComplete(cfg, n, es);
    ExportVerdicts(cfg, n, es);
    forall r | 0 <= r < n
      ensures About(got, r) == About(sent, r) && (Done(About(sent, r)) || Lost(cfg, About(sent, r)))
    {
      SettledReceived(cfg, n, es, r);
    }
    assert DoneRanges(n, got) == DoneRanges(n, sent);
    assert LostRanges(cfg, n, got) == LostRanges(cfg, n, sent);
  }
}
