/** What every run of the message pump keeps. */
module PumpTheorems {
  import opened Types
  import opened Retry
  import opened Workers
  import opened Pump

  /** At every step the running workers and the tokens waiting in DispatchDone add
      up to activeHandlers plus what this iteration has launched so far. So at most
      MaxHandlers workers run, and the send of line 112 never blocks, also after
      the pump has returned. */
  ghost predicate Conserved(c: Config, s: State) {
    && Running(s.workers) + s.tokens == s.active + Launched(s.pc) <= c.maxHandlers
    && 0 <= Running(s.workers)
    && forall i :: 0 <= i < |s.workers| && s.workers[i].stage.Finishing? ==> Enabled(c, s, SendToken(i))
  }

  lemma InvConserves(c: Config, s: State)
    requires Tokens(s) && Control(c, s)
    ensures Conserved(c, s)
    ensures s.active == c.maxHandlers && s.pc.Selecting? && s.tokens == 0
            ==> exists i: nat :: i < |s.workers| && !s.workers[i].stage.Done?
  {
    var ws := s.workers;
    DoneAmongBound(ws, |ws|);
    if i :| 0 <= i < |ws| && !ws[i].stage.Done? {
      assert DoneCount(ws) != |ws|;
    } else {
      assert DoneSet(ws, |ws|) == Below(|ws|);
    }
  }

  lemma TokenConservation(c: Config, es: seq<Event>)
    requires Valid(c, es)
    ensures Conserved(c, Run(c, es))
  {
    RunKeepsInv(c, es);
    InvConserves(c, Run(c, es));
  }

  ghost predicate HeadForm(c: Config, s: State) {
    && s.active == Min(|s.workers|, c.maxHandlers - 1)
    && s.consumed == Max(0, |s.workers| - (c.maxHandlers - 1))
    && s.consumed <= DoneCount(s.workers)
  }

  lemma InvGivesHeadForm(c: Config, s: State)
    requires Tokens(s) && Control(c, s) && s.pc.Head?
    ensures HeadForm(c, s)
  {
  }

  /** activeHandlers is not the number of running workers: at every loop head it is
      min(launched, MaxHandlers-1), and the rest of the launched workers have had
      their token consumed. */
  lemma LoopHeadClosedForm(c: Config, es: seq<Event>)
    requires Valid(c, es) && Run(c, es).pc.Head?
    ensures HeadForm(c, Run(c, es))
  {
    RunKeepsInv(c, es);
    InvGivesHeadForm(c, Run(c, es));
  }

  /** Message number i is launched only when at least i-MaxHandlers+1 of the
      earlier ones have finished. */
  lemma WindowLaw(c: Config, es: seq<Event>)
    requires Valid(c, es + [Launch])
    ensures Valid(c, es)
    ensures var ws := Run(c, es).workers;
            DoneCount(ws) >= |ws| + 1 - c.maxHandlers && Running(ws) <= c.maxHandlers - 1
  {
    assert (es + [Launch])[..|es|] == es;
    RunKeepsInv(c, es);
  }

  /** Of the messages launched before message j, at most MaxHandlers-1 are unfinished. */
  lemma UnfinishedBefore(c: Config, s: State, j: nat)
    requires Inv(c, s) && j < |s.workers|
    ensures |Below(j) - DoneSet(s.workers, j)| <= c.maxHandlers - 1
    ensures c.maxHandlers == 1 ==> forall i :: 0 <= i < j ==> s.workers[i].stage.Done?
  {
    assert StartsLate(c.maxHandlers, s.workers, j);
    DoneAmongBound(s.workers, j);
  }

  lemma SignalStep(c: Config, s: State, e: Event)
    requires Enabled(c, s, e)
    ensures Apply(c, s, e).cancelled == (s.cancelled || e == Cancel)
    ensures Apply(c, s, e).closed == (s.closed || e == Close)
  {
  }

  /** The context is done, and the transporter closed, exactly when they were told so. */
  lemma {:induction false} SignalsAreTold(c: Config, es: seq<Event>)
    requires Valid(c, es)
    ensures Run(c, es).cancelled == (Cancel in es)
    ensures Run(c, es).closed == (Close in es)
  {
    if es != [] {
      SignalsAreTold(c, es[..|es| - 1]);
      SignalStep(c, Run(c, es[..|es| - 1]), es[|es| - 1]);
    }
  }

  /** Launching is first in, first out and loses nothing, and what the buffer still
      holds on exit is accounted for: nothing, unless the pump was cancelled while
      saturated; then the buffer is a suffix that no call was ever made for. */
  lemma ExitAccounting(c: Config, es: seq<Event>)
    requires Valid(c, es) && Run(c, es).pc.Exited?
    ensures var s := Run(c, es);
            && Messages(s.workers) + s.buffer == Flatten(s.received)
            && (s.buffer != [] ==> s.pc.reason.ContextCancelled? && s.active == c.maxHandlers)
            && (if s.pc.reason.TransporterClosed? then Close in es else Cancel in es)
            && forall call :: call in s.trace ==> call.worker < |s.workers|
  {
    RunKeepsInv(c, es);
    SignalsAreTold(c, es);
  }

  /** The calls made for a message, taken from the global trace, follow the grammar
      once its worker has finished; before that none of them is a delete without a
      successful dispatch, and no message is both deleted and poisoned. */
  lemma TraceGrammar(c: Config, es: seq<Event>, i: nat)
    requires Valid(c, es) && i < |Run(c, es).workers|
    ensures var s := Run(c, es);
            var w := s.workers[i];
            && Project(s.trace, i) == Block(w)
            && (w.stage.Finishing? || w.stage.Done? ==> Grammar(c.retryCount, w) && Settled(w))
            && (Delete in Project(s.trace, i) ==> Handled(w) && Poison !in Project(s.trace, i))
            && (Poison in Project(s.trace, i) ==> !Handled(w))
  {
    RunKeepsInv(c, es);
    var w := Run(c, es).workers[i];
    assert WorkerInv(c.retryCount, w);
    NoDeleteWithoutDispatch(c.retryCount, w);
    if w.stage.Finishing? || w.stage.Done? {
      FinishedWorkerFollowsGrammar(c.retryCount, w);
    }
  }

  // ---- Waiting for the stream ----

  /** Blocked in the receive of line 55. */
  predicate WaitsForStream(s: State) {
    s.pc.Head? && s.buffer == [] && !s.closed
  }

  /** `fs` continues the run `es` without a batch and without a close. */
  predicate StreamSilent(es: seq<Event>, fs: seq<Event>) {
    es <= fs && forall k :: |es| <= k < |fs| ==> !fs[k].Receive? && !fs[k].Close?
  }

  /** A pump that waits for its stream launches nothing and does not exit while
      the stream delivers nothing, cancelled or not: line 55 does not look at the
      context. */
  lemma {:induction false} CancellationUnseenWhileWaiting(c: Config, es: seq<Event>, fs: seq<Event>)
    requires Valid(c, es) && WaitsForStream(Run(c, es)) && Valid(c, fs) && StreamSilent(es, fs)
    ensures WaitsForStream(Run(c, fs)) && |Run(c, fs).workers| == |Run(c, es).workers|
    decreases |fs|
  {
    if |fs| == |es| {
      assert fs == es;
    } else {
      CancellationUnseenWhileWaiting(c, es, fs[..|fs| - 1]);
    }
  }

  // ---- Cancellation ----

  /** Once the context is done, the loop goes on only by taking a token: the select
      of lines 94-100 never passes. */
  lemma {:induction false} CancelledLoopNeedsTokens(c: Config, es: seq<Event>, fs: seq<Event>)
    requires Valid(c, fs) && es <= fs && Cancel in es
    ensures forall k :: |es| <= k < |fs| ==> !fs[k].Continue?
    decreases |fs|
  {
    if |fs| > |es| {
      var prev := fs[..|fs| - 1];
      CancelledLoopNeedsTokens(c, es, prev);
      SignalsAreTold(c, prev);
      assert Cancel in prev;
    }
  }

  /** At a select with the context done the pump can exit, and although it can also
      take a token when there is one and it is saturated, it exits and does
      nothing else when a handler is free: it never reads or launches again. */
  lemma {:induction false} CancelledSelectEnds(c: Config, es: seq<Event>, fs: seq<Event>)
    requires Valid(c, es) && Run(c, es).pc.Selecting? && Cancel in es
    requires Valid(c, fs) && es <= fs
    ensures Enabled(c, Run(c, es), ObserveCancel)
    ensures Run(c, es).active == c.maxHandlers && Run(c, es).tokens > 0 ==> Enabled(c, Run(c, es), Consume)
    ensures Run(c, es).active < c.maxHandlers ==> Ending(Run(c, es), Run(c, fs))
    decreases |fs|
  {
    SignalsAreTold(c, es);
    if |fs| == |es| {
      assert fs == es;
    } else {
      var prev := fs[..|fs| - 1];
      CancelledSelectEnds(c, es, prev);
      if Run(c, es).active < c.maxHandlers {
        EndingStep(c, Run(c, es), Run(c, prev), fs[|fs| - 1]);
      }
    }
  }

  /** From s to t the pump has at most exited. */
  ghost predicate Ending(s: State, t: State) {
    && (t.pc.Selecting? || t.pc == Exited(ContextCancelled))
    && t.cancelled && t.active == s.active && t.consumed == s.consumed
    && t.received == s.received && t.buffer == s.buffer && |t.workers| == |s.workers|
  }

  lemma EndingStep(c: Config, s: State, t: State, e: Event)
    requires Ending(s, t) && s.active < c.maxHandlers && Enabled(c, t, e)
    ensures Ending(s, Apply(c, t, e))
  {
  }

  // ---- The pump exits once ----

  predicate IsExit(e: Event) {
    e.ObserveClose? || e.ObserveCancel?
  }

  function Exits(es: seq<Event>): nat {
    if es == [] then 0 else Exits(es[..|es| - 1]) + if IsExit(es[|es| - 1]) then 1 else 0
  }

  lemma ExitIsTerminal(c: Config, s: State, e: Event)
    requires Enabled(c, s, e)
    ensures s.pc.Exited? ==> !IsExit(e)
    ensures Apply(c, s, e).pc.Exited? <==> s.pc.Exited? || IsExit(e)
  {
  }

  /** Exiting is terminal: the pump notifies its awaiter (lines 57, 86, 97) once if
      it has exited, and not at all before. */
  lemma {:induction false} ExitsOnce(c: Config, es: seq<Event>)
    requires Valid(c, es)
    ensures Exits(es) == if Run(c, es).pc.Exited? then 1 else 0
  {
    if es != [] {
      ExitsOnce(c, es[..|es| - 1]);
      ExitIsTerminal(c, Run(c, es[..|es| - 1]), es[|es| - 1]);
    }
  }

  // ---- One handler ----

  function Tagged(i: nat, kinds: seq<Kind>): seq<Call> {
    seq(|kinds|, k requires 0 <= k < |kinds| => Call(i, kinds[k]))
  }

  function Blocks(ws: seq<Worker>): seq<seq<Call>> {
    seq(|ws|, i requires 0 <= i < |ws| => Tagged(i, Block(ws[i])))
  }

  lemma BlocksAppend(ws: seq<Worker>, w: Worker)
    ensures Flatten(Blocks(ws + [w])) == Flatten(Blocks(ws)) + Tagged(|ws|, Block(w))
  {
    assert Blocks(ws + [w]) == Blocks(ws) + [Tagged(|ws|, Block(w))];
    FlattenAppend(Blocks(ws), Tagged(|ws|, Block(w)));
  }

  /** The worker launched last begins one more call. */
  lemma BlocksGrowLast(ws: seq<Worker>, w: Worker, kind: Kind)
    requires ws != [] && Block(w) == Block(ws[|ws| - 1]) + [kind]
    ensures Flatten(Blocks(ws[|ws| - 1 := w])) == Flatten(Blocks(ws)) + [Call(|ws| - 1, kind)]
  {
    var vs, v := ws[..|ws| - 1], ws[|ws| - 1];
    assert ws == vs + [v] && ws[|ws| - 1 := w] == vs + [w];
    BlocksAppend(vs, v);
    BlocksAppend(vs, w);
    assert Tagged(|vs|, Block(w)) == Tagged(|vs|, Block(v)) + [Call(|vs|, kind)];
  }

  /** With one handler only the worker launched last can act. */
  lemma OnlyLastActs(c: Config, s: State, i: nat)
    requires c.maxHandlers == 1 && Inv(c, s) && i < |s.workers| && !s.workers[i].stage.Done?
    ensures i == |s.workers| - 1
  {
    UnfinishedBefore(c, s, |s.workers| - 1);
  }

  ghost predicate Serial(trace: seq<Call>, ws: seq<Worker>) {
    trace == Flatten(Blocks(ws))
  }

  lemma SerialBegin(count: int, trace: seq<Call>, ws: seq<Worker>, i: nat)
    requires i == |ws| - 1 && WorkerInv(count, ws[i]) && CanBegin(ws[i]) && Serial(trace, ws)
    ensures Serial(trace + [Call(i, NextKind(ws[i]))], ws[i := Begin(ws[i])])
  {
    BlockGrowsOnBegin(count, ws[i]);
    BlocksGrowLast(ws, Begin(ws[i]), NextKind(ws[i]));
  }

  lemma SerialUpdate(trace: seq<Call>, ws: seq<Worker>, i: nat, w: Worker)
    requires Serial(trace, ws) && i < |ws| && Block(w) == Block(ws[i])
    ensures Serial(trace, ws[i := w])
  {
    assert Blocks(ws[i := w]) == Blocks(ws);
  }

  lemma SerialBeginStep(c: Config, s: State, i: nat)
    requires c.maxHandlers == 1 && Inv(c, s) && Enabled(c, s, BeginCall(i)) && Serial(s.trace, s.workers)
    ensures Serial(s.trace + [Call(i, NextKind(s.workers[i]))], s.workers[i := Begin(s.workers[i])])
  {
    OnlyLastActs(c, s, i);
    assert WorkerInv(c.retryCount, s.workers[i]);
    SerialBegin(c.retryCount, s.trace, s.workers, i);
  }

  lemma SerialReturnStep(c: Config, s: State, i: nat, r: Error)
    requires Inv(c, s) && Enabled(c, s, ReturnCall(i, r)) && Serial(s.trace, s.workers)
    ensures Serial(s.trace, s.workers[i := Return(c.retryCount, s.workers[i], r)])
  {
    assert WorkerInv(c.retryCount, s.workers[i]);
    BlockStaysOnReturn(c.retryCount, s.workers[i], r);
    SerialUpdate(s.trace, s.workers, i, Return(c.retryCount, s.workers[i], r));
  }

  lemma SerialTokenStep(c: Config, s: State, i: nat)
    requires Inv(c, s) && Enabled(c, s, SendToken(i)) && Serial(s.trace, s.workers)
    ensures Serial(s.trace, s.workers[i := s.workers[i].(stage := Done)])
  {
    assert WorkerInv(c.retryCount, s.workers[i]);
    DoneKeepsWorkerInv(c.retryCount, s.workers[i]);
    SerialUpdate(s.trace, s.workers, i, s.workers[i].(stage := Done));
  }

  lemma SerialStep(c: Config, s: State, e: Event)
    requires c.maxHandlers == 1 && Inv(c, s) && Enabled(c, s, e) && Serial(s.trace, s.workers)
    ensures Serial(Apply(c, s, e).trace, Apply(c, s, e).workers)
  {
    match e
    case Launch => BlocksAppend(s.workers, Spawn(s.buffer[s.pc.k]));
    case BeginCall(i) => SerialBeginStep(c, s, i);
    case ReturnCall(i, r) => SerialReturnStep(c, s, i, r);
    case SendToken(i) => SerialTokenStep(c, s, i);
    case _ =>
  }

  lemma {:induction false} TraceIsSerial(c: Config, es: seq<Event>)
    requires c.maxHandlers == 1 && Valid(c, es)
    ensures Serial(Run(c, es).trace, Run(c, es).workers)
  {
    if es != [] {
      var prev := es[..|es| - 1];
      TraceIsSerial(c, prev);
      RunKeepsInv(c, prev);
      SerialStep(c, Run(c, prev), es[|es| - 1]);
    }
  }

  ghost predicate AllButLastFinished(count: int, ws: seq<Worker>) {
    forall i :: 0 <= i < |ws| - 1 ==> ws[i].stage.Done? && Grammar(count, ws[i])
  }

  lemma EarlierWorkersFinished(c: Config, s: State)
    requires c.maxHandlers == 1 && Inv(c, s)
    ensures AllButLastFinished(c.retryCount, s.workers)
  {
    if s.workers != [] {
      UnfinishedBefore(c, s, |s.workers| - 1);
      forall i | 0 <= i < |s.workers| - 1
        ensures s.workers[i].stage.Done? && Grammar(c.retryCount, s.workers[i])
      {
        FinishedWorkerFollowsGrammar(c.retryCount, s.workers[i]);
      }
    }
  }

  /** With one handler, whatever the batch boundaries, the global trace of calls is
      the concatenation, in arrival order, of the calls of each message; every
      message but the last one launched is finished. */
  lemma SerialisedWithOneHandler(c: Config, es: seq<Event>)
    requires c.maxHandlers == 1 && Valid(c, es)
    ensures Serial(Run(c, es).trace, Run(c, es).workers)
    ensures AllButLastFinished(c.retryCount, Run(c, es).workers)
  {
    RunKeepsInv(c, es);
    TraceIsSerial(c, es);
    EarlierWorkersFinished(c, Run(c, es));
  }

  ghost predicate AlwaysSerial(c: Config) {
    forall es :: Valid(c, es) ==> Serial(Run(c, es).trace, Run(c, es).workers)
  }

  lemma ReversedIsNotSerial(ws: seq<Worker>)
    requires |ws| == 2 && Block(ws[0]) == [Dispatch] && Block(ws[1]) == [Dispatch]
    ensures !Serial([Call(1, Dispatch), Call(0, Dispatch)], ws)
  {
    BlocksAppend(ws[..1], ws[1]);
    BlocksAppend(ws[..0], ws[0]);
    assert ws == ws[..1] + [ws[1]] && ws[..1] == ws[..0] + [ws[0]];
    assert Tagged(0, Block(ws[0])) == [Call(0, Dispatch)];
    assert Flatten(Blocks(ws))[0] == Call(0, Dispatch);
  }

  /** With two handlers or more, two messages can be handled in the wrong order. */
  lemma OutOfOrderRun(c: Config) returns (es: seq<Event>)
    requires c.maxHandlers > 1
    ensures Valid(c, es) && !Serial(Run(c, es).trace, Run(c, es).workers)
  {
    var a, b := Message("a", 0), Message("b", 1);
    var s1 := Init.(pc := Launching(2, 0), buffer := [a, b], received := [[a, b]]);
    var s2 := s1.(pc := Launching(2, 1), workers := [Spawn(a)]);
    var s3 := s2.(pc := Launching(2, 2), workers := [Spawn(a), Spawn(b)]);
    var s4 := s3.(workers := [Spawn(a), Begin(Spawn(b))], trace := [Call(1, Dispatch)]);
    var s5 := s4.(workers := [Begin(Spawn(a)), Begin(Spawn(b))], trace := [Call(1, Dispatch), Call(0, Dispatch)]);
    es := TakeStep(c, [], Init, Receive([a, b]), s1);
    es := TakeStep(c, es, s1, Launch, s2);
    es := TakeStep(c, es, s2, Launch, s3);
    es := TakeStep(c, es, s3, BeginCall(1), s4);
    es := TakeStep(c, es, s4, BeginCall(0), s5);
    ReversedIsNotSerial(s5.workers);
  }

  /** One more step of a given run. */
  lemma TakeStep(c: Config, es: seq<Event>, s: State, e: Event, s': State) returns (es': seq<Event>)
    requires Valid(c, es) && Run(c, es) == s && Enabled(c, s, e) && Apply(c, s, e) == s'
    ensures Valid(c, es') && Run(c, es') == s'
  {
    Extend(c, es, e);
    es' := es + [e];
  }

  /** Messages are handled strictly one after the other in every run exactly when
      there is one handler. */
  lemma SerialExactlyWithOneHandler(c: Config)
    ensures AlwaysSerial(c) <==> c.maxHandlers == 1
  {
    if c.maxHandlers == 1 {
      forall es | Valid(c, es) ensures Serial(Run(c, es).trace, Run(c, es).workers) {
        TraceIsSerial(c, es);
      }
    } else {
      var es := OutOfOrderRun(c);
    }
  }

  // ---- Liveness of the environment ----

  predicate ByWorker(e: Event) {
    e.BeginCall? || e.ReturnCall? || e.SendToken?
  }

  /** `fs` continues the run `es` with events of workers only. */
  predicate WorkersRunOn(es: seq<Event>, fs: seq<Event>) {
    es <= fs && forall k :: |es| <= k < |fs| ==> ByWorker(fs[k])
  }

  /** What worker events leave alone. */
  predicate SamePump(s: State, t: State) {
    && s.pc == t.pc && s.buffer == t.buffer && s.active == t.active && s.consumed == t.consumed
    && s.received == t.received && s.closed == t.closed && s.cancelled == t.cancelled
    && |s.workers| == |t.workers|
  }

  lemma {:induction false} WorkerEventsKeepPump(c: Config, es: seq<Event>, fs: seq<Event>)
    requires Valid(c, fs) && WorkersRunOn(es, fs)
    ensures Valid(c, es) && SamePump(Run(c, es), Run(c, fs))
    decreases |fs|
  {
    if |fs| == |es| {
      assert fs == es;
    } else {
      WorkerEventsKeepPump(c, es, fs[..|fs| - 1]);
    }
  }

  /** What worker i does next on its own: begin its next call, have it return, or send its token. */
  function NextOf(w: Worker, i: nat): Event {
    if w.stage.Finishing? then SendToken(i) else if w.calling then ReturnCall(i, Nil) else BeginCall(i)
  }

  function StepsLeft(count: int, w: Worker): int {
    2 * CallsLeft(count, w) + if w.calling then 0 else 1
  }

  lemma NextOfWorker(c: Config, s: State, i: nat)
    requires Inv(c, s) && i < |s.workers| && !s.workers[i].stage.Done?
    ensures Enabled(c, s, NextOf(s.workers[i], i))
    ensures var w, w' := s.workers[i], Apply(c, s, NextOf(s.workers[i], i)).workers[i];
            if w.stage.Finishing? then w'.stage.Done?
            else !w'.stage.Done? && 0 <= StepsLeft(c.retryCount, w') < StepsLeft(c.retryCount, w)
  {
    InvConserves(c, s);
    var w := s.workers[i];
    assert WorkerInv(c.retryCount, w);
    if !w.stage.Finishing? && w.calling {
      ReturnKeepsInv(c.retryCount, w, Nil);
      CallsLeftFalls(c.retryCount, w, Nil);
    }
  }

  /** Worker i's own next step, from the state s that es reaches. */
  lemma StepWorker(c: Config, es: seq<Event>, s: State, i: nat) returns (e: Event, s': State)
    requires Valid(c, es) && Run(c, es) == s && i < |s.workers| && !s.workers[i].stage.Done?
    ensures ByWorker(e) && Valid(c, es + [e]) && Run(c, es + [e]) == s' && i < |s'.workers|
    ensures if s.workers[i].stage.Finishing? then s'.tokens > 0
            else !s'.workers[i].stage.Done?
                 && 0 <= StepsLeft(c.retryCount, s'.workers[i]) < StepsLeft(c.retryCount, s.workers[i])
  {
    RunKeepsInv(c, es);
    e := NextOf(s.workers[i], i);
    NextOfWorker(c, s, i);
    s' := Apply(c, s, e);
    Extend(c, es, e);
  }

  /** A worker that has not finished can run to its token on its own. */
  lemma {:induction false} CompleteWorker(c: Config, es: seq<Event>, s: State, i: nat) returns (fs: seq<Event>)
    requires Valid(c, es) && Run(c, es) == s && i < |s.workers| && !s.workers[i].stage.Done?
    ensures WorkersRunOn(es, fs) && Valid(c, fs) && Run(c, fs).tokens > 0
    decreases StepsLeft(c.retryCount, s.workers[i])
  {
    var e, s' := StepWorker(c, es, s, i);
    fs := es + [e];
    if !s.workers[i].stage.Finishing? {
      fs := CompleteWorker(c, es + [e], s', i);
    }
  }

  /** A saturated pump is never deadlocked: a token is there, or some worker can
      run on until it has sent one. */
  lemma SaturatedPumpProgresses(c: Config, es: seq<Event>) returns (fs: seq<Event>)
    requires Valid(c, es) && Run(c, es).pc.Selecting? && Run(c, es).active == c.maxHandlers
    ensures WorkersRunOn(es, fs) && Valid(c, fs) && Enabled(c, Run(c, fs), Consume)
  {
    var s := Run(c, es);
    RunKeepsInv(c, es);
    InvConserves(c, s);
    fs := es;
    if s.tokens == 0 {
      var i: nat :| i < |s.workers| && !s.workers[i].stage.Done?;
      fs := CompleteWorker(c, es, s, i);
      WorkerEventsKeepPump(c, es, fs);
    }
  }
}
