/** jQuery.Callbacks("once memory") and the two lists of a jQuery.Deferred, with handlers that may
    call back into the deferred while they run.

    User handlers are numbered. A run of the machine is any sequence of operations: adding handlers,
    resolving or rejecting, and the running handler returning. An operation issued while a handler
    runs is a call made from inside that handler. Handlers are assumed to return normally.
 */
module Deferred {
  import opened Common

  datatype Side = Resolve | Reject

  function Other(side: Side): Side {
    if side == Resolve then Reject else Resolve
  }

  datatype PromiseState = Pending | Resolved | Rejected

  function StateOf(side: Side): PromiseState {
    if side == Resolve then Resolved else PromiseState.Rejected
  }

  type Args = int

  /** The three callbacks a Deferred puts first on each list, and those of its users. */
  datatype Handler = SetState | DisableOther | LockProgress | User(id: nat)

  /** The closure variables of one callback list; a list that is not defined is disabled. There is
      no stack of pending fires, because the list was created with "once". */
  datatype Callbacks = Callbacks(
    list: seq<Handler>, defined: bool, memory: Option<Args>, fired: bool,
    firing: bool, firingIndex: nat, firingLength: nat, firingStart: nat)

  datatype Call = Call(side: Side, id: nat, args: Args)

  datatype Machine = Machine(resolve: Callbacks, reject: Callbacks, state: PromiseState, log: seq<Call>)

  function Get(d: Machine, side: Side): Callbacks {
    if side == Resolve then d.resolve else d.reject
  }

  function Put(d: Machine, side: Side, cb: Callbacks): Machine {
    if side == Resolve then d.(resolve := cb) else d.(reject := cb)
  }

  function Disabled(cb: Callbacks): Callbacks {
    cb.(list := [], defined := false, memory := None)
  }

  function Users(ids: seq<nat>): (hs: seq<Handler>)
    ensures |hs| == |ids| && forall i :: 0 <= i < |ids| ==> hs[i] == User(ids[i])
  {
    seq(|ids|, i requires 0 <= i < |ids| => User(ids[i]))
  }

  const INTERNAL: seq<Handler> := [SetState, DisableOther, LockProgress]

  function NewCallbacks(): Callbacks {
    Callbacks(INTERNAL, true, None, false, false, 0, 0, 0)
  }

  function NewMachine(): Machine {
    Machine(NewCallbacks(), NewCallbacks(), Pending, [])
  }

  /** The firing loop of list `side` from its current index, up to the next user handler, which
      starts running, or to the end of the list. */
  function Continue(d: Machine, side: Side): Machine
    decreases Get(d, side).firingLength - Get(d, side).firingIndex
  {
    var cb := Get(d, side);
    if cb.defined && cb.firingIndex < cb.firingLength && cb.firingIndex < |cb.list| then
      var next := Put(d, side, cb.(firingIndex := cb.firingIndex + 1));
      match cb.list[cb.firingIndex]
      case User(id) => if cb.memory.Some? then d.(log := d.log + [Call(side, id, cb.memory.value)]) else d
      case SetState => Continue(next.(state := StateOf(side)), side)
      case DisableOther => Continue(Put(next, Other(side), Disabled(Get(d, Other(side)))), side)
      case LockProgress => Continue(next, side)
    else if !cb.defined then Put(d, side, cb.(firing := false))
    else if cb.memory.Some? then Put(d, side, cb.(firing := false, list := []))
    else Put(d, side, Disabled(cb.(firing := false)))
  }

  /** The list stands in front of one of the deferred's own callbacks. */
  predicate AtInternal(d: Machine, side: Side) {
    var cb := Get(d, side);
    cb.defined && cb.firingIndex < cb.firingLength && cb.firingIndex < |cb.list| && !cb.list[cb.firingIndex].User?
  }

  /** One such callback runs. */
  function RunInternal(d: Machine, side: Side): (next: Machine)
    requires AtInternal(d, side)
    ensures Continue(next, side) == Continue(d, side)
    ensures Get(next, side).firingLength - Get(next, side).firingIndex < Get(d, side).firingLength - Get(d,
        side).firingIndex
  {
    var cb := Get(d, side);
    var next := Put(d, side, cb.(firingIndex := cb.firingIndex + 1));
    match cb.list[cb.firingIndex]
    case SetState => next.(state := StateOf(side))
    case DisableOther => Put(next, Other(side), Disabled(Get(d, Other(side))))
    case LockProgress => next
  }

  /** Firing a list: remember the arguments and run the loop from where it should start. */
  function Fire(d: Machine, side: Side, args: Args): Machine {
    var cb := Get(d, side);
    var start := cb.(memory := Some(args), fired := true, firingIndex := cb.firingStart, firingStart := 0,
                     firingLength := |cb.list|, firing := true);
    Continue(Put(d, side, start), side)
  }

  /** Registering handlers with done or fail. */
  function Add(d: Machine, side: Side, ids: seq<nat>): Machine {
    var cb := Get(d, side);
    if !cb.defined then d
    else
      var longer := cb.(list := cb.list + Users(ids));
      if cb.firing then Put(d, side, longer.(firingLength := |longer.list|))
      else if cb.memory.Some? then Fire(Put(d, side, longer.(firingStart := |cb.list|)), side, cb.memory.value)
      else Put(d, side, longer)
  }

  /** Resolving or rejecting; for a list created with "once" a second fire does nothing. */
  function FireWith(d: Machine, side: Side, args: Args): Machine {
    var cb := Get(d, side);
    if cb.defined && !cb.fired then Fire(d, side, args) else d
  }

  /** The running handler of list `side` returns and the loop goes on. */
  function Return(d: Machine, side: Side): Machine {
    var cb := Get(d, side);
    if cb.firing then Continue(Put(d, side, cb.(firingIndex := cb.firingIndex + 1)), side) else d
  }

  datatype Op = Register(side: Side, ids: seq<nat>) | Settle(side: Side, args: Args) | HandlerReturns

  function Step(d: Machine, op: Op): Machine {
    match op
    case Register(side, ids) => Add(d, side, ids)
    case Settle(side, args) => FireWith(d, side, args)
    case HandlerReturns => if d.resolve.firing then Return(d, Resolve) else Return(d, Reject)
  }

  function Run(d: Machine, ops: seq<Op>): Machine
    decreases |ops|
  {
    if ops == [] then d else Run(Step(d, ops[0]), ops[1..])
  }

  // ---- what a Deferred promises ----

  /** The specification: the first settlement wins; `ran` handlers of the winning side have started,
      and one of them is still running if `busy`. */
  datatype Promise = Promise(winner: Option<(Side, Args)>, resolvers: seq<nat>, rejecters: seq<nat>, ran: nat,
      busy: bool)

  function Registered(p: Promise, side: Side): seq<nat> {
    if side == Resolve then p.resolvers else p.rejecters
  }

  function WithRegistered(p: Promise, side: Side, ids: seq<nat>): Promise {
    if side == Resolve then p.(resolvers := p.resolvers + ids) else p.(rejecters := p.rejecters + ids)
  }

  /** Let the next handler of the winning side start, if none runs and one is left. */
  function StartNext(p: Promise): Promise {
    if p.winner.Some? && !p.busy && p.ran < |Registered(p, p.winner.value.0)| then p.(ran := p.ran + 1, busy := true)
        else p
  }

  function PromiseStep(p: Promise, op: Op): Promise {
    match op
    case Register(side, ids) => StartNext(WithRegistered(p, side, ids))
    case Settle(side, args) => if p.winner.None? then StartNext(p.(winner := Some((side, args)))) else p
    case HandlerReturns => if p.busy then StartNext(p.(busy := false)) else p
  }

  function PromiseRun(p: Promise, ops: seq<Op>): Promise
    decreases |ops|
  {
    if ops == [] then p else PromiseRun(PromiseStep(p, ops[0]), ops[1..])
  }

  const FRESH: Promise := Promise(None, [], [], 0, false)

  /** Handlers `hs` called one after the other with `args`. */
  function CallsTo(side: Side, hs: seq<nat>, args: Args): (log: seq<Call>)
    ensures |log| == |hs|
  {
    seq(|hs|, i requires 0 <= i < |hs| => Call(side, hs[i], args))
  }

  /** The calls a promise has made: the winner's handlers in registration order, each with the
      arguments of the winning call. */
  function Calls(p: Promise): (log: seq<Call>)
    requires p.winner.Some? ==> p.ran <= |Registered(p, p.winner.value.0)|
    requires p.winner.None? ==> p.ran == 0
    ensures |log| == p.ran
  {
    if p.winner.None? then [] else CallsTo(p.winner.value.0, Registered(p, p.winner.value.0)[..p.ran], p.winner.value.1)
  }

  ghost predicate Sound(p: Promise) {
    && (p.winner.None? ==> p.ran == 0 && !p.busy)
    && (p.winner.Some? ==> p.ran <= |Registered(p, p.winner.value.0)|)
    && (p.winner.Some? && !p.busy ==> p.ran == |Registered(p, p.winner.value.0)|)
    && (p.busy ==> p.ran > 0)
  }

  // ---- the machine refines the promise ----

  /** A list that has not fired yet. */
  ghost predicate Waiting(cb: Callbacks, ids: seq<nat>) {
    cb.defined && !cb.fired && !cb.firing && cb.memory.None? && cb.firingStart == 0 && cb.list == INTERNAL + Users(ids)
  }

  /** The winning list: its remaining handlers are queued behind the one running, or it is empty. */
  ghost predicate Won(cb: Callbacks, ids: seq<nat>, args: Args, ran: nat, busy: bool) {
    && cb.defined && cb.fired && cb.memory == Some(args) && cb.firingStart == 0
    && cb.firing == busy && ran <= |ids|
    && (!busy ==> cb.list == [] && ran == |ids|)
    && (busy ==>
          && ran > 0 && cb.firingLength == |cb.list| && cb.firingIndex < |cb.list|
          && cb.list[cb.firingIndex] == User(ids[ran - 1])
          && cb.list[cb.firingIndex + 1..] == Users(ids[ran..]))
  }

  ghost predicate Refines(d: Machine, p: Promise) {
    && Sound(p) && d.log == Calls(p)
    && match p.winner
       case None =>
         d.state == Pending && Waiting(d.resolve, p.resolvers) && Waiting(d.reject, p.rejecters)
       case Some((side, args)) =>
         && d.state == StateOf(side)
         && Won(Get(d, side), Registered(p, side), args, p.ran, p.busy)
         && !Get(d, Other(side)).defined && !Get(d, Other(side)).firing
  }

  lemma NewRefines()
    ensures Refines(NewMachine(), FRESH)
  {
    assert INTERNAL + Users([]) == INTERNAL;
  }

  /** The loop of the winning list stands in front of the handlers that have not run. */
  ghost predicate AtUsers(d: Machine, side: Side, args: Args, p: Promise) {
    && p.winner == Some((side, args)) && !p.busy && p.ran <= |Registered(p, side)|
    && d.log == Calls(p) && d.state == StateOf(side)
    && !Get(d, Other(side)).defined && !Get(d, Other(side)).firing
    && var cb := Get(d, side);
    && cb.defined && cb.fired && cb.firing && cb.memory == Some(args) && cb.firingStart == 0
    && cb.firingLength == |cb.list| && cb.firingIndex <= |cb.list|
    && cb.list[cb.firingIndex..] == Users(Registered(p, side)[p.ran..])
  }

  /** It starts the next one or ends. */
  lemma ContinueUsers(d: Machine, side: Side, args: Args, p: Promise)
    requires AtUsers(d, side, args, p)
    ensures Refines(Continue(d, side), StartNext(p))
  {
    var cb, ids, q := Get(d, side), Registered(p, side), StartNext(p);
    if p.ran < |ids| {
      assert cb.list[cb.firingIndex..][0] == User(ids[p.ran]) == cb.list[cb.firingIndex];
      assert cb.list[cb.firingIndex..][1..] == cb.list[cb.firingIndex + 1..];
      assert Users(ids[p.ran..])[1..] == Users(ids[p.ran + 1..]);
      assert Calls(q) == Calls(p) + [Call(side, ids[p.ran], args)];
    } else {
      assert |cb.list[cb.firingIndex..]| == 0;
    }
  }

  /** The first fire: the deferred's own callbacks settle the state and disable the other list. */
  lemma SettleRefines(d: Machine, p: Promise, side: Side, args: Args)
    requires Refines(d, p)
    ensures Refines(FireWith(d, side, args), PromiseStep(p, Settle(side, args)))
  {
    if p.winner.None? {
      var cb, ids := Get(d, side), Registered(p, side);
      var n := |cb.list|;
      var c0 := cb.(memory := Some(args), fired := true, firingIndex := 0, firingStart := 0, firingLength :=
          n, firing := true);
      var d0 := Put(d, side, c0);
      assert cb.list[0] == SetState && cb.list[1] == DisableOther && cb.list[2] == LockProgress;
      var d1 := Put(d0, side, c0.(firingIndex := 1)).(state := StateOf(side));
      assert Continue(d0, side) == Continue(d1, side);
      var d2 := Put(Put(d1, side, c0.(firingIndex := 2)), Other(side), Disabled(Get(d1, Other(side))));
      assert Continue(d1, side) == Continue(d2, side);
      var d3 := Put(d2, side, c0.(firingIndex := 3));
      assert Continue(d2, side) == Continue(d3, side);
      assert cb.list[3..] == Users(ids) && ids[0..] == ids;
      var q := p.(winner := Some((side, args)));
      assert Calls(q) == Calls(p) == [];
      ContinueUsers(d3, side, args, q);
    }
  }

  lemma UsersJoin(a: seq<nat>, b: seq<nat>)
    ensures Users(a + b) == Users(a) + Users(b)
  {
  }

  /** Registering while pending only queues the handlers. */
  lemma RegisterPending(d: Machine, p: Promise, side: Side, ids: seq<nat>)
    requires Refines(d, p) && p.winner.None?
    ensures Refines(Add(d, side, ids), PromiseStep(p, Register(side, ids)))
  {
    UsersJoin(Registered(p, side), ids);
    assert INTERNAL + Users(Registered(p, side)) + Users(ids) == INTERNAL + Users(Registered(p, side) + ids);
  }

  lemma CallsKept(p: Promise, side: Side, ids: seq<nat>)
    requires Sound(p)
    ensures Calls(WithRegistered(p, side, ids)) == Calls(p)
  {
    var q := WithRegistered(p, side, ids);
    if p.winner.Some? {
      var won := p.winner.value.0;
      assert Registered(q, won)[..p.ran] == Registered(p, won)[..p.ran];
    }
  }

  /** Registering on the side that lost does nothing. */
  lemma RegisterLost(d: Machine, p: Promise, side: Side, ids: seq<nat>)
    requires Refines(d, p) && p.winner.Some? && p.winner.value.0 != side
    ensures Refines(Add(d, side, ids), PromiseStep(p, Register(side, ids)))
  {
    CallsKept(p, side, ids);
    assert Registered(WithRegistered(p, side, ids), Other(side)) == Registered(p, Other(side));
  }

  /** Registering from inside a running handler extends the loop that runs. */
  lemma RegisterBusy(d: Machine, p: Promise, side: Side, ids: seq<nat>)
    requires Refines(d, p) && p.winner.Some? && p.winner.value.0 == side && p.busy
    ensures Refines(Add(d, side, ids), PromiseStep(p, Register(side, ids)))
  {
    CallsKept(p, side, ids);
    var cb, before := Get(d, side), Registered(p, side);
    var i := cb.firingIndex + 1;
    assert (cb.list + Users(ids))[i..] == cb.list[i..] + Users(ids);
    assert (before + ids)[p.ran..] == before[p.ran..] + ids;
    UsersJoin(before[p.ran..], ids);
  }

  /** Registering after the fact fires the remembered arguments at once. */
  lemma RegisterLate(d: Machine, p: Promise, side: Side, ids: seq<nat>)
    requires Refines(d, p) && p.winner.Some? && p.winner.value.0 == side && !p.busy
    ensures Refines(Add(d, side, ids), PromiseStep(p, Register(side, ids)))
  {
    CallsKept(p, side, ids);
    var cb, q := Get(d, side), WithRegistered(p, side, ids);
    var c0 := cb.(list := Users(ids), firingIndex := 0, firingLength := |ids|, firing := true);
    assert cb.list + Users(ids) == Users(ids);
    assert Registered(q, side)[p.ran..] == ids;
    assert Put(Put(d, side, c0.(firing := false)), side, c0) == Put(d, side, c0);
    assert c0.list[0..] == c0.list;
    ContinueUsers(Put(d, side, c0), side, p.winner.value.1, q);
  }

  lemma RegisterRefines(d: Machine, p: Promise, side: Side, ids: seq<nat>)
    requires Refines(d, p)
    ensures Refines(Add(d, side, ids), PromiseStep(p, Register(side, ids)))
  {
    if p.winner.None? {
      RegisterPending(d, p, side, ids);
    } else if p.winner.value.0 != side {
      RegisterLost(d, p, side, ids);
    } else if p.busy {
      RegisterBusy(d, p, side, ids);
    } else {
      RegisterLate(d, p, side, ids);
    }
  }

  /** The list after its running handler has returned. */
  function Returned(d: Machine, side: Side): Machine {
    Put(d, side, Get(d, side).(firingIndex := Get(d, side).firingIndex + 1))
  }

  lemma ReturnedAtUsers(d: Machine, p: Promise, side: Side, args: Args)
    requires Refines(d, p) && p.busy && p.winner == Some((side, args))
    ensures AtUsers(Returned(d, side), side, args, p.(busy := false))
  {
    var q := p.(busy := false);
    assert Registered(q, side) == Registered(p, side) && Calls(q) == Calls(p);
    assert Get(Returned(d, side), Other(side)) == Get(d, Other(side));
  }

  lemma ReturnBusy(d: Machine, p: Promise, side: Side, args: Args)
    requires Refines(d, p) && p.busy && p.winner == Some((side, args))
    ensures Refines(Return(d, side), StartNext(p.(busy := false)))
  {
    ReturnedAtUsers(d, p, side, args);
    ContinueUsers(Returned(d, side), side, args, p.(busy := false));
    assert Return(d, side) == Continue(Returned(d, side), side);
  }

  lemma ReturnRefines(d: Machine, p: Promise)
    requires Refines(d, p)
    ensures Refines(Step(d, HandlerReturns), PromiseStep(p, HandlerReturns))
  {
    if p.busy {
      ReturnBusy(d, p, p.winner.value.0, p.winner.value.1);
    }
  }

  /** The callback lists behave like the promise, whatever is called from wherever. */
  lemma {:induction false} RunRefines(d: Machine, p: Promise, ops: seq<Op>)
    requires Refines(d, p)
    ensures Refines(Run(d, ops), PromiseRun(p, ops))
    decreases |ops|
  {
    if ops != [] {
      match ops[0] {
        case Register(side, ids) => RegisterRefines(d, p, side, ids);
        case Settle(side, args) => SettleRefines(d, p, side, args);
        case HandlerReturns => ReturnRefines(d, p);
      }
      RunRefines(Step(d, ops[0]), PromiseStep(p, ops[0]), ops[1..]);
    }
  }

  // ---- the promise, read off the calls made ----

  /** The first call of resolve or reject. */
  function FirstSettlement(ops: seq<Op>): Option<(Side, Args)> {
    if ops == [] then None
    else match ops[0]
      case Settle(side, args) => Some((side, args))
      case _ => FirstSettlement(ops[1..])
  }

  /** Every handler registered on a side, in the order of the calls. */
  function HandlersOf(ops: seq<Op>, side: Side): seq<nat> {
    if ops == [] then []
    else (if ops[0].Register? && ops[0].side == side then ops[0].ids else []) + HandlersOf(ops[1..], side)
  }

  lemma {:induction false} RunWinner(p: Promise, ops: seq<Op>)
    ensures PromiseRun(p, ops).winner == if p.winner.Some? then p.winner else FirstSettlement(ops)
    decreases |ops|
  {
    if ops != [] {
      RunWinner(PromiseStep(p, ops[0]), ops[1..]);
    }
  }

  lemma {:induction false} RunRegistered(p: Promise, ops: seq<Op>, side: Side)
    ensures Registered(PromiseRun(p, ops), side) == Registered(p, side) + HandlersOf(ops, side)
    decreases |ops|
  {
    if ops != [] {
      RunRegistered(PromiseStep(p, ops[0]), ops[1..], side);
    }
  }

  lemma {:induction false} RunSplit(d: Machine, first: seq<Op>, rest: seq<Op>)
    ensures Run(d, first + rest) == Run(Run(d, first), rest)
    decreases |first|
  {
    if first == [] {
      assert first + rest == rest;
    } else {
      assert (first + rest)[1..] == first[1..] + rest;
      RunSplit(Step(d, first[0]), first[1..], rest);
    }
  }

  predicate Busy(d: Machine) {
    d.resolve.firing || d.reject.firing
  }

  /** The first settlement among `ops` decides the state; only handlers of its side have run, in
      registration order and with its arguments; and when no handler is running, all of them have. */
  ghost predicate Honoured(d: Machine, ops: seq<Op>) {
    match FirstSettlement(ops)
    case None => d.state == Pending && d.log == [] && !Busy(d)
    case Some(first) =>
      var calls := CallsTo(first.0, HandlersOf(ops, first.0), first.1);
      && d.state == (match first.0 case Resolve => Resolved case Reject => PromiseState.Rejected)
      && d.log <= calls && (!Busy(d) ==> d.log == calls)
  }

  /** For every sequence of calls, from inside running handlers or not. */
  lemma DeferredHonoursFirst(ops: seq<Op>)
    ensures Honoured(Run(NewMachine(), ops), ops)
  {
    NewRefines();
    RunRefines(NewMachine(), FRESH, ops);
    RunWinner(FRESH, ops);
    RunRegistered(FRESH, ops, Resolve);
    RunRegistered(FRESH, ops, Reject);
    var p := PromiseRun(FRESH, ops);
    if p.winner.Some? {
      var (side, args) := p.winner.value;
      assert Registered(p, side) == HandlersOf(ops, side);
    }
  }

  lemma {:induction false} FirstStays(first: seq<Op>, rest: seq<Op>)
    ensures FirstSettlement(first).Some? ==> FirstSettlement(first + rest) == FirstSettlement(first)
    ensures forall side :: HandlersOf(first + rest, side) == HandlersOf(first, side) + HandlersOf(rest, side)
    decreases |first|
  {
    if first == [] {
      assert first + rest == rest;
    } else {
      assert (first + rest)[1..] == first[1..] + rest;
      FirstStays(first[1..], rest);
    }
  }

  /** Leaving "pending" happens at most once, and nothing that has run is taken back. */
  lemma SettledForGood(ops: seq<Op>, later: seq<Op>)
    ensures var d, e := Run(NewMachine(), ops), Run(NewMachine(), ops + later);
      && (d.state != Pending ==> e.state == d.state)
      && d.log <= e.log
  {
    DeferredHonoursFirst(ops);
    DeferredHonoursFirst(ops + later);
    FirstStays(ops, later);
    NewRefines();
    RunRefines(NewMachine(), FRESH, ops);
    RunSplit(NewMachine(), ops, later);
    LogGrows(Run(NewMachine(), ops), PromiseRun(FRESH, ops), later);
    var d, e := Run(NewMachine(), ops), Run(NewMachine(), ops + later);
    if FirstSettlement(ops).Some? {
      var side := FirstSettlement(ops).value.0;
      assert forall i :: 0 <= i < |d.log| ==>
          d.log[i].id == HandlersOf(ops, side)[i] == HandlersOf(ops + later, side)[i];
      assert forall i :: 0 <= i < |d.log| ==> d.log[i] == e.log[i];
    }
  }

  lemma {:induction false} LogGrows(d: Machine, p: Promise, ops: seq<Op>)
    requires Refines(d, p)
    ensures |d.log| <= |Run(d, ops).log|
    decreases |ops|
  {
    if ops != [] {
      RunRefines(d, p, ops[..1]);
      assert ops[..1] == [ops[0]];
      assert Run(d, [ops[0]]) == Run(Step(d, ops[0]), []);
      assert PromiseRun(p, [ops[0]]) == PromiseRun(PromiseStep(p, ops[0]), []);
      LogGrows(Step(d, ops[0]), PromiseStep(p, ops[0]), ops[1..]);
    }
  }

  /** `n` handlers return in a row. */
  function Returns(n: nat): (ops: seq<Op>)
    ensures forall i :: 0 <= i < |ops| ==> ops[i] == HandlerReturns
  {
    if n == 0 then [] else [HandlerReturns] + Returns(n - 1)
  }

  lemma RunReturns(d: Machine, n: nat)
    requires n > 0
    ensures Run(d, Returns(n)) == Run(Step(d, HandlerReturns), Returns(n - 1))
  {
    assert Returns(n)[1..] == Returns(n - 1);
  }

  /** How many handlers are still to finish. */
  ghost function Unfinished(p: Promise): int
    requires p.winner.Some?
  {
    |Registered(p, p.winner.value.0)| - p.ran + if p.busy then 1 else 0
  }

  lemma UnfinishedFalls(p: Promise)
    requires Sound(p) && p.winner.Some?
    ensures p.busy == (Unfinished(p) > 0)
    ensures var q := PromiseStep(p, HandlerReturns);
      q.winner == p.winner && Unfinished(q) <= Unfinished(p) && (p.busy ==> Unfinished(q) < Unfinished(p))
  {
  }

  /** Progress: once the unfinished handlers have returned, none is running. */
  lemma {:induction false} HandlersAllRun(d: Machine, p: Promise, n: nat)
    requires Refines(d, p) && p.winner.Some? && n >= Unfinished(p)
    ensures !Busy(Run(d, Returns(n)))
    decreases n
  {
    UnfinishedFalls(p);
    if n > 0 {
      ReturnRefines(d, p);
      RunReturns(d, n);
      HandlersAllRun(Step(d, HandlerReturns), PromiseStep(p, HandlerReturns), n - 1);
    }
  }

  lemma {:induction false} NoHandlers(ops: seq<Op>, side: Side)
    requires forall i :: 0 <= i < |ops| ==> ops[i] == HandlerReturns
    ensures HandlersOf(ops, side) == []
  {
    if ops != [] {
      NoHandlers(ops[1..], side);
    }
  }

  /** Every handler of the winning side, registered before, during or after, runs exactly once. */
  lemma EveryWinnerRuns(ops: seq<Op>, n: nat)
    requires FirstSettlement(ops).Some?
    requires n > |HandlersOf(ops, FirstSettlement(ops).value.0)|
    ensures var d := Run(NewMachine(), ops + Returns(n));
      var first := FirstSettlement(ops).value;
      && d.state == (match first.0 case Resolve => Resolved case Reject => PromiseState.Rejected)
      && d.log == CallsTo(first.0, HandlersOf(ops, first.0), first.1)
  {
    var side := FirstSettlement(ops).value.0;
    NewRefines();
    RunRefines(NewMachine(), FRESH, ops);
    RunWinner(FRESH, ops);
    RunRegistered(FRESH, ops, side);
    HandlersAllRun(Run(NewMachine(), ops), PromiseRun(FRESH, ops), n);
    RunSplit(NewMachine(), ops, Returns(n));
    DeferredHonoursFirst(ops + Returns(n));
    FirstStays(ops, Returns(n));
    NoHandlers(Returns(n), side);
    assert HandlersOf(ops + Returns(n), side) == HandlersOf(ops, side);
  }

  // ---- the objects themselves ----

  class CallbackList {
    var list: seq<Handler>
    var defined: bool
    var memory: Option<Args>
    var fired: bool
    var firing: bool
    var firingIndex: nat
    var firingLength: nat
    var firingStart: nat

    function View(): Callbacks
      reads this
    {
      Callbacks(list, defined, memory, fired, firing, firingIndex, firingLength, firingStart)
    }

    constructor ()
      ensures View() == NewCallbacks()
    {
      list, defined, memory := INTERNAL, true, None;
      fired, firing, firingIndex, firingLength, firingStart := false, false, 0, 0, 0;
    }

    method Disable()
      modifies this
      ensures View() == Disabled(old(View()))
    {
      list, defined, memory := [], false, None;
    }

    /** The pushes of add: one handler after the other. */
    method PushAll(ids: seq<nat>)
      modifies this`list
      ensures list == old(list) + Users(ids)
    {
      for i := 0 to |ids|
        invariant list == old(list) + Users(ids[..i])
      {
        UsersJoin(ids[..i], [ids[i]]);
        assert ids[..i + 1] == ids[..i] + [ids[i]];
        list := list + [User(ids[i])];
      }
      assert ids[..|ids|] == ids;
    }
  }

  class DeferredObject {
    const resolve: CallbackList
    const reject: CallbackList
    var state: PromiseState
    var log: seq<Call>

    ghost predicate Valid() {
      resolve != reject
    }

    function View(): Machine
      reads this, resolve, reject
    {
      Machine(resolve.View(), reject.View(), state, log)
    }

    constructor ()
      ensures Valid() && fresh(resolve) && fresh(reject) && View() == NewMachine()
    {
      resolve := new CallbackList();
      reject := new CallbackList();
      state, log := Pending, [];
    }

    function ListOf(side: Side): CallbackList {
      if side == Resolve then resolve else reject
    }

    method CallInternal(side: Side)
      requires Valid() && AtInternal(View(), side)
      modifies this, resolve, reject
      ensures View() == RunInternal(old(View()), side)
    {
      var cb := ListOf(side);
      var h := cb.list[cb.firingIndex];
      cb.firingIndex := cb.firingIndex + 1;
      match h {
        case SetState => state := StateOf(side);
        case DisableOther => ListOf(Other(side)).Disable();
        case LockProgress =>
      }
    }

    /** The loop of fire, left when a user handler starts or when the list is done. */
    method Resume(side: Side)
      requires Valid()
      modifies this, resolve, reject
      ensures View() == Continue(old(View()), side)
    {
      while AtInternal(View(), side)
        invariant Continue(View(), side) == Continue(old(View()), side)
        decreases Get(View(), side).firingLength - Get(View(), side).firingIndex
      {
        CallInternal(side);
      }
      Finish(side);
    }

    /** The end of the loop: the next user handler starts, or the list is emptied. */
    method Finish(side: Side)
      requires Valid() && !AtInternal(View(), side)
      modifies this, resolve, reject
      ensures View() == Continue(old(View()), side)
    {
      var cb := ListOf(side);
      if cb.defined && cb.firingIndex < cb.firingLength && cb.firingIndex < |cb.list| {
        if cb.memory.Some? {
          log := log + [Call(side, cb.list[cb.firingIndex].id, cb.memory.value)];
        }
      } else {
        cb.firing := false;
        if cb.defined {
          if cb.memory.Some? {
            cb.list := [];
          } else {
            cb.Disable();
          }
        }
      }
    }

    method FireList(side: Side, args: Args)
      requires Valid()
      modifies this, resolve, reject
      ensures View() == Fire(old(View()), side, args)
    {
      var cb := ListOf(side);
      cb.memory, cb.fired := Some(args), true;
      cb.firingIndex := cb.firingStart;
      cb.firingStart := 0;
      cb.firingLength := |cb.list|;
      cb.firing := true;
      Resume(side);
    }

    method AddHandlers(side: Side, ids: seq<nat>)
      requires Valid()
      modifies this, resolve, reject
      ensures View() == Step(old(View()), Register(side, ids))
    {
      var cb := ListOf(side);
      if cb.defined {
        var start := |cb.list|;
        cb.PushAll(ids);
        if cb.firing {
          cb.firingLength := |cb.list|;
        } else if cb.memory.Some? {
          cb.firingStart := start;
          FireList(side, cb.memory.value);
        }
      }
    }

    method SettleWith(side: Side, args: Args)
      requires Valid()
      modifies this, resolve, reject
      ensures View() == Step(old(View()), Settle(side, args))
    {
      var cb := ListOf(side);
      if cb.defined && !cb.fired {
        FireList(side, args);
      }
    }

    method HandlerReturned()
      requires Valid()
      modifies this, resolve, reject
      ensures View() == Step(old(View()), HandlerReturns)
    {
      var side := if resolve.firing then Resolve else Reject;
      var cb := ListOf(side);
      if cb.firing {
        cb.firingIndex := cb.firingIndex + 1;
        Resume(side);
      }
    }
  }
}
