/** Runs of the pipeline that reach its bounds, for every configuration, and what
    follows: one handler is exactly what sequential delivery needs. */
module PipelineRuns {
  import opened Types
  import opened Workers
  import opened Pipeline
  import opened PipelineTheorems
  import C = Committer
  import P = Pump
  import S = CommitServer
  import T = PumpTheorems

  /** One more step of a given run. */
  lemma TakeStep(c: Config, es: seq<Event>, s: State, e: Event) returns (es': seq<Event>, s': State)
    requires Valid(c, es) && Run(c, es) == s && Enabled(c, s, e)
    ensures es' == es + [e] && s' == Apply(c, s, e) && Valid(c, es') && Run(c, es') == s'
  {
    es', s' := es + [e], Apply(c, s, e);
    assert es'[..|es|] == es;
  }

  // ---- Launching ----

  function Msg(i: nat): Message {
    Message("m", i)
  }

  function Msgs(n: nat): seq<Message> {
    seq(n, i requires 0 <= i < n => Msg(i))
  }

  function Batches(n: nat): seq<seq<Message>> {
    seq(n, i requires 0 <= i < n => [Msg(i)])
  }

  function Spawned(n: nat): seq<Worker> {
    seq(n, i requires 0 <= i < n => Spawn(Msg(i)))
  }

  lemma {:induction false} FlattenBatches(n: nat)
    ensures Flatten(Batches(n)) == Msgs(n)
  {
    if n > 0 {
      FlattenBatches(n - 1);
      assert Batches(n)[..n - 1] == Batches(n - 1);
      assert Msgs(n) == Msgs(n - 1) + [Msg(n - 1)];
    }
  }

  /** n messages delivered one by one and launched, the launch loop not left. */
  function LaunchedPump(n: nat): P.State
    requires 1 <= n
  {
    P.State(P.Launching(1, 1), [Msg(n - 1)], n - 1, 0, 0, Spawned(n), Batches(n), [], false, false)
  }

  function WithPump(c: Config, p: P.State): State {
    State(p, S.Init(c.start), [], [])
  }

  /** The same with the pump back at its loop head. */
  function WaitingPump(n: nat): P.State {
    P.State(P.Head, [], n, 0, 0, Spawned(n), Batches(n), [], false, false)
  }

  lemma NextDelivered(c: Config, n: nat)
    requires n < c.pump.maxHandlers
    ensures Enabled(c, WithPump(c, WaitingPump(n)), Deliver(Msg(n)))
    ensures Apply(c, WithPump(c, WaitingPump(n)), Deliver(Msg(n)))
            == WithPump(c, LaunchedPump(n + 1).(pc := P.Launching(1, 0), workers := Spawned(n)))
  {
    FlattenBatches(n);
    assert Batches(n + 1) == Batches(n) + [[Msg(n)]];
  }

  lemma NextLaunched(c: Config, n: nat)
    ensures var p := LaunchedPump(n + 1).(pc := P.Launching(1, 0), workers := Spawned(n));
            P.Enabled(c.pump, p, P.Launch) && P.Apply(c.pump, p, P.Launch) == LaunchedPump(n + 1)
  {
    assert Spawned(n + 1) == Spawned(n) + [Spawn(Msg(n))];
  }

  /** The next message is delivered and launched, from the loop head. */
  lemma LaunchFrom(c: Config, es: seq<Event>, n: nat) returns (es': seq<Event>)
    requires n < c.pump.maxHandlers && Valid(c, es) && Run(c, es) == WithPump(c, WaitingPump(n))
    ensures Valid(c, es') && Run(c, es') == WithPump(c, LaunchedPump(n + 1))
  {
    var s;
    NextDelivered(c, n);
    es', s := TakeStep(c, es, WithPump(c, WaitingPump(n)), Deliver(Msg(n)));
    NextLaunched(c, n);
    es', s := TakeStep(c, es', s, PumpStep(P.Launch));
  }

  lemma LoopGoesOn(c: Config, n: nat)
    requires 1 <= n < c.pump.maxHandlers
    ensures var p := LaunchedPump(n);
            P.Enabled(c.pump, p, P.EndLaunch)
            && P.Apply(c.pump, p, P.EndLaunch) == WaitingPump(n).(pc := P.Selecting)
    ensures var p := WaitingPump(n).(pc := P.Selecting);
            P.Enabled(c.pump, p, P.Continue) && P.Apply(c.pump, p, P.Continue) == WaitingPump(n)
  {
  }

  /** The launch loop is left, and the pump is back at its loop head. */
  lemma BackAtHead(c: Config, es: seq<Event>, n: nat) returns (es': seq<Event>)
    requires 1 <= n < c.pump.maxHandlers && Valid(c, es) && Run(c, es) == WithPump(c, LaunchedPump(n))
    ensures Valid(c, es') && Run(c, es') == WithPump(c, WaitingPump(n))
  {
    var s;
    LoopGoesOn(c, n);
    es', s := TakeStep(c, es, WithPump(c, LaunchedPump(n)), PumpStep(P.EndLaunch));
    es', s := TakeStep(c, es', s, PumpStep(P.Continue));
  }

  lemma {:induction false} LaunchedRun(c: Config, n: nat) returns (es: seq<Event>)
    requires 1 <= n <= c.pump.maxHandlers
    ensures Valid(c, es) && Run(c, es) == WithPump(c, LaunchedPump(n))
  {
    if n == 1 {
      es := LaunchFrom(c, [], 0);
    } else {
      es := LaunchedRun(c, n - 1);
      es := BackAtHead(c, es, n - 1);
      es := LaunchFrom(c, es, n - 1);
    }
  }

  // ---- Handling and committing one message ----

  function HandledWorker(m: Message): Worker {
    Spawn(m).(stage := Deleting, dispatches := [Nil])
  }

  /** Only worker i has moved. */
  ghost predicate OnlyMoves(i: nat, s: State, t: State) {
    && t.pump.received == s.pump.received
    && |t.pump.workers| == |s.pump.workers|
    && forall j :: 0 <= j < |s.pump.workers| && j != i ==> t.pump.workers[j] == s.pump.workers[j]
  }

  lemma DispatchBegins(c: Config, s: P.State, i: nat)
    requires i < |s.workers| && s.workers[i] == Spawn(s.workers[i].msg)
    ensures P.Enabled(c.pump, s, P.BeginCall(i))
    ensures P.Apply(c.pump, s, P.BeginCall(i))
            == s.(workers := s.workers[i := Begin(s.workers[i])], trace := s.trace + [P.Call(i, Dispatch)])
  {
  }

  lemma DispatchSucceeds(c: Config, s: P.State, i: nat)
    requires i < |s.workers| && s.workers[i] == Begin(Spawn(s.workers[i].msg))
    ensures P.Enabled(c.pump, s, P.ReturnCall(i, Nil))
    ensures P.Apply(c.pump, s, P.ReturnCall(i, Nil))
            == s.(workers := s.workers[i := HandledWorker(s.workers[i].msg)])
  {
    assert s.workers[i].dispatches + [Nil] == [Nil];
  }

  /** Worker i dispatches its message successfully. */
  lemma HandledBy(c: Config, es: seq<Event>, s: State, i: nat) returns (es': seq<Event>, s': State)
    requires Valid(c, es) && Run(c, es) == s && !s.server.crashed
    requires i < |s.pump.workers| && s.pump.workers[i] == Spawn(s.pump.workers[i].msg)
    ensures Valid(c, es') && Run(c, es') == s' && OnlyMoves(i, s, s')
    ensures s'.pump.workers[i] == HandledWorker(s.pump.workers[i].msg)
    ensures s'.pump.trace == s.pump.trace + [P.Call(i, Dispatch)]
    ensures s'.server == s.server && s'.owner == s.owner && s'.direct == s.direct
  {
    DispatchBegins(c, s.pump, i);
    es', s' := TakeStep(c, es, s, PumpStep(P.BeginCall(i)));
    DispatchSucceeds(c, s'.pump, i);
    es', s' := TakeStep(c, es', s', PumpStep(P.ReturnCall(i, Nil)));
  }

  /** Nothing is pending in the committer, and nothing is being served. */
  ghost predicate AtRest(s: State) {
    && s.server.pc.Idle? && !s.server.stopped && !s.server.crashed
    && s.server.fields.observed == 0 && s.server.fields.lastSeen.None?
    && |s.owner| == |s.server.calls|
  }

  ghost predicate ReadyToCommit(c: Config, es: seq<Event>, s: State, i: nat) {
    && Valid(c, es) && Run(c, es) == s && AtRest(s)
    && i < |s.pump.workers| && s.pump.workers[i] == HandledWorker(s.pump.workers[i].msg)
  }

  /** In state t, reached by fs, event e commits the message of worker i, which
      leads by gs to a state u where the committer is at rest again. */
  ghost predicate CommitsMessage(c: Config, s: State, i: nat, fs: seq<Event>, e: Event, gs: seq<Event>)
    requires i < |s.pump.workers|
  {
    && Valid(c, fs) && Enabled(c, Run(c, fs), e) && OnlyMoves(i, s, Run(c, fs))
    && Commits(c, Run(c, fs), e) == Some(s.pump.workers[i].msg)
    && Valid(c, gs) && OnlyMoves(i, s, Run(c, gs)) && AtRest(Run(c, gs))
    && Committed(Run(c, gs)) == Committed(s) + [s.pump.workers[i].msg]
  }

  lemma DirectDelete(c: Config, s: State, i: nat)
    requires !Buffered(c) && !s.server.crashed
    requires i < |s.pump.workers| && s.pump.workers[i] == HandledWorker(s.pump.workers[i].msg)
    ensures Enabled(c, s, DeleteBegins(i))
    ensures Apply(c, s, DeleteBegins(i))
            == s.(pump := s.pump.(workers := s.pump.workers[i := Begin(s.pump.workers[i])],
                                  trace := s.pump.trace + [P.Call(i, Delete)]),
                  direct := s.direct + [s.pump.workers[i].msg])
  {
  }

  lemma DirectCommit(c: Config, es: seq<Event>, s: State, i: nat) returns (e: Event, gs: seq<Event>)
    requires ReadyToCommit(c, es, s, i) && !Buffered(c) && s.server.marked == []
    ensures CommitsMessage(c, s, i, es, e, gs) && Run(c, gs).server.marked == []
  {
    e := DeleteBegins(i);
    var t;
    DirectDelete(c, s, i);
    gs, t := TakeStep(c, es, s, e);
  }

  /** The call of worker i is made and accepted. */
  lemma AcceptedCall(c: Config, es: seq<Event>, s: State, i: nat) returns (fs: seq<Event>, t: State)
    requires ReadyToCommit(c, es, s, i) && Buffered(c)
    ensures Valid(c, fs) && Run(c, fs) == t && OnlyMoves(i, s, t) && t.pump.workers[i] == Begin(s.pump.workers[i])
    ensures t.direct == s.direct && t.server.marked == s.server.marked && !t.server.stopped && !t.server.crashed
    ensures t.server.fields == s.server.fields.(observed := 1, lastSeen := Some(s.pump.workers[i].msg))
    ensures t.owner == s.owner + [i] && |t.server.calls| == |t.owner|
    ensures t.server.pc == if c.committer.batchSize > 1 then S.Replying(|s.owner|, Nil)
                           else S.Hooking(s.pump.workers[i].msg, S.ByRequest(|s.owner|))
  {
    fs, t := TakeStep(c, es, s, DeleteBegins(i));
    fs, t := TakeStep(c, fs, t, Serve(S.Accept(|s.owner|)));
  }

  /** The hook accepts, and the committer commits. */
  lemma HookAccepts(c: Config, t: State)
    requires Buffered(c) && t.server.pc.Hooking? && !t.server.crashed
    ensures var e := Serve(S.FinishHook(Nil, 0));
            Enabled(c, t, e) && Commits(c, t, e) == Some(t.server.pc.msg) && CommittedNow(t, Apply(c, t, e))
  {
  }

  ghost predicate CommittedNow(t: State, u: State)
    requires t.server.pc.Hooking?
  {
    && u.pump == t.pump && u.owner == t.owner && u.direct == t.direct
    && u.server.marked == t.server.marked + [t.server.pc.msg]
    && u.server.fields.observed == 0 && u.server.fields.lastSeen.None?
    && |u.server.calls| == |t.server.calls| && u.server.stopped == t.server.stopped && !u.server.crashed
    && u.server.pc == match t.server.pc.cause
                      case ByRequest(k) => S.Replying(k, Nil)
                      case ByTick(_) => S.Idle
  }

  /** The reply reaches the worker that waits for it. */
  lemma ReplyArrives(c: Config, t: State, i: nat)
    requires t.server.pc.Replying? && !t.server.crashed && |t.owner| == |t.server.calls|
    requires t.server.pc.call < |t.owner| && t.owner[t.server.pc.call] == i
    requires i < |t.pump.workers| && t.pump.workers[i].calling
    ensures Enabled(c, t, DeleteReturns) && RepliedNow(i, t, Apply(c, t, DeleteReturns))
  {
  }

  ghost predicate RepliedNow(i: nat, t: State, u: State) {
    && OnlyMoves(i, t, u) && u.owner == t.owner && u.direct == t.direct
    && u.server.pc.Idle? && u.server.marked == t.server.marked && u.server.fields == t.server.fields
    && |u.server.calls| == |t.server.calls| && u.server.stopped == t.server.stopped && !u.server.crashed
  }

  lemma FullCommit(c: Config, es: seq<Event>, s: State, i: nat) returns (fs: seq<Event>, e: Event, gs: seq<Event>)
    requires ReadyToCommit(c, es, s, i) && c.committer.batchSize == 1 && s.direct == []
    ensures CommitsMessage(c, s, i, fs, e, gs) && Run(c, gs).direct == []
  {
    var t, u;
    fs, t := AcceptedCall(c, es, s, i);
    e := Serve(S.FinishHook(Nil, 0));
    HookAccepts(c, t);
    gs, u := TakeStep(c, fs, t, e);
    ReplyArrives(c, u, i);
    gs, u := TakeStep(c, gs, u, DeleteReturns);
  }

  /** With nothing else pending, the timer commits the one message observed. */
  lemma TimerStartsCommit(c: Config, t: State, m: Message)
    requires Buffered(c) && t.server.pc.Idle? && !t.server.crashed && t.server.fields.lastSeen == Some(m)
    ensures var at := t.server.fields.lastCommit + c.committer.interval;
            && Enabled(c, t, Serve(S.TimerFires(at)))
            && Apply(c, t, Serve(S.TimerFires(at)))
               == t.(server := t.server.(pc := S.Hooking(m, S.ByTick(at)), clock := t.server.clock + 1))
  {
  }

  lemma TimedCommit(c: Config, es: seq<Event>, s: State, i: nat) returns (fs: seq<Event>, e: Event, gs: seq<Event>)
    requires ReadyToCommit(c, es, s, i) && c.committer.batchSize > 1 && s.direct == []
    ensures CommitsMessage(c, s, i, fs, e, gs) && Run(c, gs).direct == []
  {
    var t, u;
    fs, t := AcceptedCall(c, es, s, i);
    ReplyArrives(c, t, i);
    fs, t := TakeStep(c, fs, t, DeleteReturns);
    TimerStartsCommit(c, t, s.pump.workers[i].msg);
    fs, t := TakeStep(c, fs, t, Serve(S.TimerFires(t.server.fields.lastCommit + c.committer.interval)));
    e := Serve(S.FinishHook(Nil, 0));
    HookAccepts(c, t);
    gs, u := TakeStep(c, fs, t, e);
  }

  /** Whichever committer it is, worker i can have its message committed. */
  lemma CommitBy(c: Config, es: seq<Event>, s: State, i: nat) returns (fs: seq<Event>, e: Event, gs: seq<Event>)
    requires ReadyToCommit(c, es, s, i) && if Buffered(c) then s.direct == [] else s.server.marked == []
    ensures CommitsMessage(c, s, i, fs, e, gs)
    ensures if Buffered(c) then Run(c, gs).direct == [] else Run(c, gs).server.marked == []
  {
    if !Buffered(c) {
      fs := es;
      e, gs := DirectCommit(c, es, s, i);
    } else if c.committer.batchSize == 1 {
      fs, e, gs := FullCommit(c, es, s, i);
    } else {
      fs, e, gs := TimedCommit(c, es, s, i);
    }
  }

  // ---- The commit gap is attained ----

  lemma OnlyLastSettled(s: State, n: nat)
    requires 1 <= n == |s.pump.workers| && s.pump.received == Batches(n)
    requires forall i :: 0 <= i < n - 1 ==> s.pump.workers[i] == Spawn(Msg(i))
    ensures Unsettled(s, n - 1) == P.Below(n - 1)
  {
    FlattenBatches(n);
  }

  /** The bound of CommitGap is attained in every configuration: MaxHandlers
      messages are delivered, and only the last is handled and committed. */
  lemma CommitGapIsTight(c: Config) returns (es: seq<Event>, e: Event)
    ensures Valid(c, es) && Enabled(c, Run(c, es), e) && Commits(c, Run(c, es), e).Some?
    ensures |Unsettled(Run(c, es), Commits(c, Run(c, es), e).value.offset)| == c.pump.maxHandlers - 1
  {
    var n: nat := c.pump.maxHandlers;
    var s, gs;
    es := LaunchedRun(c, n);
    es, s := HandledBy(c, es, Run(c, es), n - 1);
    es, e, gs := CommitBy(c, es, s, n - 1);
    OnlyLastSettled(Run(c, es), n);
  }

  // ---- Sequential delivery ----

  /** No run ever commits past a message that is neither handled nor poisoned. */
  ghost predicate NeverAhead(c: Config) {
    forall es, e :: Valid(c, es) && Enabled(c, Run(c, es), e) ==> !CommitsAhead(c, Run(c, es), e)
  }

  ghost predicate CommitsAhead(c: Config, s: State, e: Event)
    requires Enabled(c, s, e)
  {
    Commits(c, s, e).Some? && Unsettled(s, Commits(c, s, e).value.offset) != {}
  }

  /** No run ever commits offsets out of order. */
  ghost predicate AlwaysInOrder(c: Config) {
    forall es :: Valid(c, es) ==> C.Nondecreasing(Committed(Run(c, es)))
  }

  /** In every run the messages are handled one after the other, in arrival order. */
  ghost predicate AlwaysSequential(c: Config) {
    forall es :: Valid(c, es) ==> T.Serial(Run(c, es).pump.trace, Run(c, es).pump.workers)
  }

  lemma {:induction false} RunIsSerial(c: Config, es: seq<Event>)
    requires c.pump.maxHandlers == 1 && Valid(c, es)
    ensures T.Serial(Run(c, es).pump.trace, Run(c, es).pump.workers)
  {
    if es == [] {
      T.TraceIsSerial(c.pump, []);
    } else {
      var prev := es[..|es| - 1];
      RunIsSerial(c, prev);
      PartsKeepTheirInvariants(c, prev);
      var p := PumpEvent(Run(c, prev), es[|es| - 1]);
      if p.Some? {
        T.SerialStep(c.pump, Run(c, prev).pump, p.value);
      }
    }
  }

  /** Two messages delivered and launched, the second handled, the first not. */
  lemma SecondHandledFirst(c: Config) returns (es: seq<Event>, s: State)
    requires c.pump.maxHandlers > 1
    ensures Valid(c, es) && Run(c, es) == s && AtRest(s) && s.direct == s.server.marked == []
    ensures s.pump.workers == [Spawn(Msg(0)), HandledWorker(Msg(1))] && s.pump.trace == [P.Call(1, Dispatch)]
  {
    es := LaunchedRun(c, 2);
    es, s := HandledBy(c, es, Run(c, es), 1);
  }

  lemma UnsequentialRun(c: Config)
    requires c.pump.maxHandlers > 1
    ensures !AlwaysSequential(c)
  {
    var es, s := SecondHandledFirst(c);
    es, s := TakeStep(c, es, s, PumpStep(P.BeginCall(0)));
    T.ReversedIsNotSerial(s.pump.workers);
  }

  /** The second message committed, the first not yet handled. */
  lemma SecondCommittedFirst(c: Config) returns (es: seq<Event>, s: State)
    requires c.pump.maxHandlers > 1
    ensures Valid(c, es) && Run(c, es) == s && AtRest(s) && Committed(s) == [Msg(1)]
    ensures if Buffered(c) then s.direct == [] else s.server.marked == []
    ensures |s.pump.workers| == 2 && s.pump.workers[0] == Spawn(Msg(0))
  {
    es, s := SecondHandledFirst(c);
    var fs, e;
    fs, e, es := CommitBy(c, es, s, 1);
    s := Run(c, es);
  }

  lemma CommittedInReverse(c: Config) returns (es: seq<Event>)
    requires c.pump.maxHandlers > 1
    ensures Valid(c, es) && Committed(Run(c, es)) == [Msg(1), Msg(0)]
  {
    var s, fs, e;
    es, s := SecondCommittedFirst(c);
    es, s := HandledBy(c, es, s, 0);
    fs, e, es := CommitBy(c, es, s, 0);
  }

  lemma DisorderedRun(c: Config)
    requires c.pump.maxHandlers > 1
    ensures !AlwaysInOrder(c)
  {
    var es := CommittedInReverse(c);
    var ms := Committed(Run(c, es));
    assert ms[0].offset > ms[1].offset;
  }

  /** README.md:176 promises that the messages of a partition are delivered to the
      handler sequentially, in the order received. In every configuration, with
      either committer: messages are handled one after the other in every run,
      and commits never run ahead of unfinished work, and committed offsets never
      go back, each exactly when there is one handler. */
  lemma SequentialExactlyWithOneHandler(c: Config)
    ensures AlwaysSequential(c) <==> c.pump.maxHandlers == 1
    ensures NeverAhead(c) <==> c.pump.maxHandlers == 1
    ensures AlwaysInOrder(c) <==> c.pump.maxHandlers == 1
  {
    if c.pump.maxHandlers == 1 {
      OneHandlerIsSequential(c);
    } else {
      UnsequentialRun(c);
      DisorderedRun(c);
      var es, e := CommitGapIsTight(c);
      assert CommitsAhead(c, Run(c, es), e);
    }
  }

  lemma OneHandlerIsSequential(c: Config)
    requires c.pump.maxHandlers == 1
    ensures AlwaysSequential(c) && NeverAhead(c) && AlwaysInOrder(c)
  {
    forall es | Valid(c, es)
      ensures T.Serial(Run(c, es).pump.trace, Run(c, es).pump.workers)
      ensures C.Nondecreasing(Committed(Run(c, es)))
    {
      RunIsSerial(c, es);
      CommitsInOrderWithOneHandler(c, es);
    }
    forall es, e | Valid(c, es) && Enabled(c, Run(c, es), e) ensures !CommitsAhead(c, Run(c, es), e) {
      if Commits(c, Run(c, es), e).Some? {
        CommitGap(c, es, e);
      }
    }
  }
}
