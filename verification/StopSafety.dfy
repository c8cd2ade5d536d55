/** Stopping the committer of a partition whose workers may still be running:
    Cleanup waits for the pump but not for the detached workers that it launched
    (core/message_pump.go:72-74), and closes commitRequests
    (kafka/buffered_committer.go:119), on which their calls of Commit send. */
module StopSafety {
  import opened Types
  import opened Retry
  import opened Workers
  import opened Pipeline
  import opened PipelineRuns
  import PipelineTheorems
  import P = Pump
  import S = CommitServer
  import T = PumpTheorems

  // ---- A worker blocked in Delete has an unanswered call ----

  ghost predicate Unanswered(calls: seq<S.Call>, owner: seq<nat>, i: nat, k: nat) {
    k < |calls| && k < |owner| && owner[k] == i && !calls[k].state.Returned?
  }

  ghost predicate HasCall(calls: seq<S.Call>, owner: seq<nat>, i: nat) {
    exists k: nat :: Unanswered(calls, owner, i, k)
  }

  predicate InDelete(w: Worker) {
    w.stage.Deleting? && w.calling
  }

  ghost predicate Blocked(ws: seq<Worker>, calls: seq<S.Call>, owner: seq<nat>) {
    forall i: nat :: i < |ws| && InDelete(ws[i]) ==> HasCall(calls, owner, i)
  }

  lemma BlockedInvoke(ws: seq<Worker>, calls: seq<S.Call>, owner: seq<nat>, i: nat, call: S.Call)
    requires Blocked(ws, calls, owner) && |owner| == |calls| && i < |ws| && !call.state.Returned?
    ensures Blocked(ws[i := Begin(ws[i])], calls + [call], owner + [i])
  {
    forall j: nat | j < |ws| && (j == i || InDelete(ws[j])) ensures HasCall(calls + [call], owner + [i], j) {
      if j == i {
        assert Unanswered(calls + [call], owner + [i], j, |calls|);
      } else {
        var k: nat :| Unanswered(calls, owner, j, k);
        assert Unanswered(calls + [call], owner + [i], j, k);
      }
    }
  }

  lemma BlockedCall(ws: seq<Worker>, calls: seq<S.Call>, owner: seq<nat>, k: nat, call: S.Call)
    requires Blocked(ws, calls, owner) && k < |calls| && !call.state.Returned?
    ensures Blocked(ws, calls[k := call], owner)
  {
    forall i: nat | i < |ws| && InDelete(ws[i]) ensures HasCall(calls[k := call], owner, i) {
      var j: nat :| Unanswered(calls, owner, i, j);
      assert Unanswered(calls[k := call], owner, i, j);
    }
  }

  lemma BlockedReturn(ws: seq<Worker>, calls: seq<S.Call>, owner: seq<nat>, k: nat, call: S.Call, w: Worker)
    requires Blocked(ws, calls, owner) && k < |calls| == |owner| && owner[k] < |ws| && !w.calling
    ensures Blocked(ws[owner[k] := w], calls[k := call], owner)
  {
    forall i: nat | i < |ws| && i != owner[k] && InDelete(ws[i]) ensures HasCall(calls[k := call], owner, i) {
      var j: nat :| Unanswered(calls, owner, i, j);
      assert Unanswered(calls[k := call], owner, i, j);
    }
  }

  ghost predicate BlockedIn(s: State) {
    Blocked(s.pump.workers, s.server.calls, s.owner)
  }

  lemma PumpStepKeepsBlocked(c: Config, s: State, p: P.Event)
    requires Buffered(c) && Enabled(c, s, PumpStep(p)) && BlockedIn(s)
    ensures BlockedIn(Apply(c, s, PumpStep(p)))
  {
  }

  lemma StepKeepsBlocked(c: Config, s: State, e: Event)
    requires Buffered(c) && Enabled(c, s, e) && BlockedIn(s) && Links(c, s)
    ensures BlockedIn(Apply(c, s, e))
  {
    var ws, calls := s.pump.workers, s.server.calls;
    match e
    case Deliver(_) =>
    case PumpStep(p) => PumpStepKeepsBlocked(c, s, p);
    case DeleteBegins(i) =>
      BlockedInvoke(ws, calls, s.owner, i, S.Call(ws[i].msg, S.Sending, s.server.clock, 0, 0));
    case Serve(a) =>
      if a.Accept? {
        BlockedCall(ws, calls, s.owner, a.call, Apply(c, s, e).server.calls[a.call]);
      }
    case DeleteReturns =>
      var k, s' := s.server.pc.call, Apply(c, s, e);
      BlockedReturn(ws, calls, s.owner, k, s'.server.calls[k], s'.pump.workers[s.owner[k]]);
  }

  lemma {:induction false} RunKeepsBlocked(c: Config, es: seq<Event>)
    requires Buffered(c) && Valid(c, es)
    ensures BlockedIn(Run(c, es))
  {
    if es != [] {
      var prev := es[..|es| - 1];
      RunKeepsBlocked(c, prev);
      RunKeepsLinks(c, prev);
      StepKeepsBlocked(c, Run(c, prev), es[|es| - 1]);
    }
  }

  // ---- Workers that will not send on commitRequests any more ----

  /** The call being served. */
  function Served(pc: S.Pc): nat
    requires S.Open(pc)
  {
    if pc.Replying? then pc.call else pc.cause.call
  }

  /** The reply to it that is the most likely to be retried. */
  function WorstReply(c: Config, pc: S.Pc): Error
    requires S.Open(pc)
  {
    if pc.Replying? then pc.err else if c.committer.hook then Failed("pre-commit hook") else Nil
  }

  /** Worker i waits for the reply to the call being served, and does not retry
      whatever the reply is. */
  predicate AwaitsFinalReply(c: Config, s: State, i: nat)
    requires i < |s.pump.workers|
  {
    var w, pc := s.pump.workers[i], s.server.pc;
    && w.calling && S.Open(pc) && Served(pc) < |s.owner| && s.owner[Served(pc)] == i
    && !More(c.pump.retryCount, w.deletes + [WorstReply(c, pc)])
  }

  predicate Quiet(c: Config, s: State, i: nat)
    requires i < |s.pump.workers|
  {
    match s.pump.workers[i].stage
    case Dispatching => false
    case Deleting => AwaitsFinalReply(c, s, i)
    case _ => true
  }

  predicate AllQuiet(c: Config, s: State) {
    forall i: nat :: i < |s.pump.workers| ==> Quiet(c, s, i)
  }

  /** Cleanup, line 92: the pump has exited, and the committer is told to stop. */
  predicate Stopped(s: State) {
    s.pump.pc.Exited? && s.server.stopped && !s.server.crashed
  }

  // ---- Quiet workers stay quiet ----

  lemma PumpStepKeepsQuiet(c: Config, s: State, p: P.Event)
    requires Buffered(c) && Enabled(c, s, PumpStep(p)) && Stopped(s) && AllQuiet(c, s)
    ensures Stopped(Apply(c, s, PumpStep(p))) && AllQuiet(c, Apply(c, s, PumpStep(p)))
  {
    var s' := Apply(c, s, PumpStep(p));
    forall i: nat | i < |s'.pump.workers| ensures Quiet(c, s', i) {
      assert Quiet(c, s, i);
    }
  }

  /** While a call is served, no other call of its worker is pending. */
  lemma NoneIsSending(c: Config, s: State, k: nat)
    requires S.Simulates(c.committer, c.start, s.server) && Links(c, s) && AllQuiet(c, s) && k < |s.server.calls|
    ensures !s.server.calls[k].state.Sending?
  {
    var i := s.owner[k];
    assert LinkedTo(s.pump.workers[i], s.server.calls[k]) && Quiet(c, s, i);
  }

  lemma ServeKeepsQuiet(c: Config, s: State, a: S.Action)
    requires Enabled(c, s, Serve(a)) && Stopped(s) && AllQuiet(c, s)
    requires S.Simulates(c.committer, c.start, s.server) && Links(c, s)
    ensures Stopped(Apply(c, s, Serve(a))) && AllQuiet(c, Apply(c, s, Serve(a)))
  {
    if a.SendOnClosed? {
      NoneIsSending(c, s, a.call);
    }
    var s' := Apply(c, s, Serve(a));
    forall i: nat | i < |s'.pump.workers| ensures Quiet(c, s', i) {
      assert Quiet(c, s, i);
    }
  }

  lemma NoneDeletes(c: Config, s: State, i: nat)
    requires AllQuiet(c, s)
    ensures !Enabled(c, s, DeleteBegins(i))
  {
    assert i < |s.pump.workers| ==> Quiet(c, s, i);
  }

  lemma ReturnKeepsQuiet(c: Config, s: State)
    requires Enabled(c, s, DeleteReturns) && Stopped(s) && AllQuiet(c, s)
    ensures Stopped(Apply(c, s, DeleteReturns)) && AllQuiet(c, Apply(c, s, DeleteReturns))
  {
    var s' := Apply(c, s, DeleteReturns);
    forall i: nat | i < |s'.pump.workers| ensures Quiet(c, s', i) {
      assert Quiet(c, s, i);
    }
  }

  lemma StepKeepsQuiet(c: Config, s: State, e: Event)
    requires Buffered(c) && Enabled(c, s, e) && Stopped(s) && AllQuiet(c, s)
    requires S.Simulates(c.committer, c.start, s.server) && Links(c, s)
    ensures Stopped(Apply(c, s, e)) && AllQuiet(c, Apply(c, s, e))
  {
    match e
    case PumpStep(p) => PumpStepKeepsQuiet(c, s, p);
    case Serve(a) => ServeKeepsQuiet(c, s, a);
    case DeleteReturns => ReturnKeepsQuiet(c, s);
    case DeleteBegins(i) => NoneDeletes(c, s, i);
    case _ =>
  }

  lemma {:induction false} QuietRunsOn(c: Config, es: seq<Event>, fs: seq<Event>)
    requires Buffered(c) && Valid(c, es) && Stopped(Run(c, es)) && AllQuiet(c, Run(c, es))
    requires Valid(c, fs) && es <= fs
    ensures Stopped(Run(c, fs)) && AllQuiet(c, Run(c, fs))
    decreases |fs|
  {
    if |fs| == |es| {
      assert fs == es;
    } else {
      var prev := fs[..|fs| - 1];
      QuietRunsOn(c, es, prev);
      PartsKeepTheirInvariants(c, prev);
      RunKeepsLinks(c, prev);
      StepKeepsQuiet(c, Run(c, prev), fs[|fs| - 1]);
    }
  }

  // ---- A worker that is not quiet can send on the closed channel ----

  /** `fs` continues the run `es` to the panic of a send on the closed channel. */
  ghost predicate Crashes(c: Config, es: seq<Event>, fs: seq<Event>) {
    es <= fs && Valid(c, fs) && Run(c, fs).server.crashed
  }

  lemma SendCrashes(c: Config, es: seq<Event>, s: State, k: nat) returns (fs: seq<Event>)
    requires Buffered(c) && Valid(c, es) && Run(c, es) == s && Stopped(s)
    requires k < |s.server.calls| && s.server.calls[k].state.Sending?
    ensures Crashes(c, es, fs)
  {
    var t;
    fs, t := TakeStep(c, es, s, Serve(S.SendOnClosed(k)));
  }

  /** Worker i is about to call Delete. */
  lemma DeleteCrashes(c: Config, es: seq<Event>, s: State, i: nat) returns (fs: seq<Event>)
    requires Buffered(c) && Valid(c, es) && Run(c, es) == s && Stopped(s)
    requires i < |s.pump.workers| && s.pump.workers[i].stage.Deleting? && !s.pump.workers[i].calling
    ensures Crashes(c, es, fs)
  {
    var t;
    fs, t := TakeStep(c, es, s, DeleteBegins(i));
    fs := SendCrashes(c, fs, t, |s.server.calls|);
  }

  /** What worker i, still dispatching, does next if the handler accepts. */
  function DispatchMove(w: Worker, i: nat): Event {
    PumpStep(T.NextOf(w, i))
  }

  lemma DispatchMoves(c: Config, s: State, i: nat)
    requires P.Inv(c.pump, s.pump) && Stopped(s)
    requires i < |s.pump.workers| && s.pump.workers[i].stage.Dispatching?
    ensures Enabled(c, s, DispatchMove(s.pump.workers[i], i))
    ensures var w, t := s.pump.workers[i], Apply(c, s, DispatchMove(s.pump.workers[i], i));
            && Stopped(t) && i < |t.pump.workers|
            && (t.pump.workers[i].stage.Dispatching?
                || (t.pump.workers[i].stage.Deleting? && !t.pump.workers[i].calling))
            && 0 <= T.StepsLeft(c.pump.retryCount, t.pump.workers[i]) < T.StepsLeft(c.pump.retryCount, w)
  {
    T.NextOfWorker(c.pump, s.pump, i);
  }

  /** Worker i is dispatching: the handler accepts, and the worker goes on to delete. */
  lemma {:induction false} DispatchCrashes(c: Config, es: seq<Event>, s: State, i: nat) returns (fs: seq<Event>)
    requires Buffered(c) && Valid(c, es) && Run(c, es) == s && Stopped(s)
    requires i < |s.pump.workers| && s.pump.workers[i].stage.Dispatching?
    ensures Crashes(c, es, fs)
    decreases T.StepsLeft(c.pump.retryCount, s.pump.workers[i])
  {
    PartsKeepTheirInvariants(c, es);
    DispatchMoves(c, s, i);
    var t;
    fs, t := TakeStep(c, es, s, DispatchMove(s.pump.workers[i], i));
    if t.pump.workers[i].stage.Dispatching? {
      fs := DispatchCrashes(c, fs, t, i);
    } else {
      fs := DeleteCrashes(c, fs, t, i);
    }
  }

  lemma ReplyRetried(c: Config, s: State, i: nat)
    requires Enabled(c, s, DeleteReturns) && Stopped(s) && s.owner[s.server.pc.call] == i
    requires i < |s.pump.workers| && InDelete(s.pump.workers[i])
    requires More(c.pump.retryCount, s.pump.workers[i].deletes + [s.server.pc.err])
    ensures var t := Apply(c, s, DeleteReturns);
            Stopped(t) && i < |t.pump.workers| && t.pump.workers[i].stage.Deleting? && !t.pump.workers[i].calling
  {
  }

  /** The reply is there, and worker i retries. */
  lemma RetryCrashes(c: Config, es: seq<Event>, s: State, i: nat) returns (fs: seq<Event>)
    requires Buffered(c) && Valid(c, es) && Run(c, es) == s && Stopped(s)
    requires i < |s.pump.workers| && InDelete(s.pump.workers[i])
    requires s.server.pc.Replying? && s.server.pc.call < |s.owner| && s.owner[s.server.pc.call] == i
    requires More(c.pump.retryCount, s.pump.workers[i].deletes + [s.server.pc.err])
    ensures Crashes(c, es, fs)
  {
    PipelineTheorems.ReplyNeverBlocks(c, es);
    ReplyRetried(c, s, i);
    var t;
    fs, t := TakeStep(c, es, s, DeleteReturns);
    fs := DeleteCrashes(c, fs, t, i);
  }

  lemma HookAnswers(c: Config, s: State)
    requires Buffered(c) && Stopped(s) && s.server.pc.Hooking? && s.server.pc.cause.ByRequest?
    ensures var e := Serve(S.FinishHook(WorstReply(c, s.server.pc), 0));
            && Enabled(c, s, e) && Stopped(Apply(c, s, e))
            && Apply(c, s, e).pump == s.pump && Apply(c, s, e).owner == s.owner
            && Apply(c, s, e).server.pc == S.Replying(s.server.pc.cause.call, WorstReply(c, s.server.pc))
  {
  }

  /** The call of worker i is being served, and the worst reply is retried. */
  lemma ServedCrashes(c: Config, es: seq<Event>, s: State, i: nat) returns (fs: seq<Event>)
    requires Buffered(c) && Valid(c, es) && Run(c, es) == s && Stopped(s)
    requires i < |s.pump.workers| && InDelete(s.pump.workers[i])
    requires S.Open(s.server.pc) && Served(s.server.pc) < |s.owner| && s.owner[Served(s.server.pc)] == i
    requires More(c.pump.retryCount, s.pump.workers[i].deletes + [WorstReply(c, s.server.pc)])
    ensures Crashes(c, es, fs)
  {
    var t := s;
    fs := es;
    if s.server.pc.Hooking? {
      HookAnswers(c, s);
      fs, t := TakeStep(c, es, s, Serve(S.FinishHook(WorstReply(c, s.server.pc), 0)));
    }
    fs := RetryCrashes(c, fs, t, i);
  }

  /** A call that waits for its reply is the one being served. */
  lemma WaitingIsServed(c: Config, s: State, k: nat)
    requires S.Inv(c.committer, c.start, s.server) && k < |s.server.calls| && s.server.calls[k].state.Waiting?
    ensures S.Open(s.server.pc) && Served(s.server.pc) == k
  {
  }

  lemma UnquietCrashes(c: Config, es: seq<Event>, s: State, i: nat) returns (fs: seq<Event>)
    requires Buffered(c) && Valid(c, es) && Run(c, es) == s && Stopped(s)
    requires i < |s.pump.workers| && !Quiet(c, s, i)
    ensures Crashes(c, es, fs)
  {
    var w := s.pump.workers[i];
    if w.stage.Dispatching? {
      fs := DispatchCrashes(c, es, s, i);
    } else if !w.calling {
      fs := DeleteCrashes(c, es, s, i);
    } else {
      RunKeepsBlocked(c, es);
      var k: nat :| Unanswered(s.server.calls, s.owner, i, k);
      if s.server.calls[k].state.Sending? {
        fs := SendCrashes(c, es, s, k);
      } else {
        PartsKeepTheirInvariants(c, es);
        WaitingIsServed(c, s, k);
        fs := ServedCrashes(c, es, s, i);
      }
    }
  }

  ghost predicate NeverCrashes(c: Config, es: seq<Event>) {
    forall fs :: !Crashes(c, es, fs)
  }

  lemma QuietNeverCrashes(c: Config, es: seq<Event>)
    requires Buffered(c) && Valid(c, es) && Stopped(Run(c, es)) && AllQuiet(c, Run(c, es))
    ensures NeverCrashes(c, es)
  {
    forall fs ensures !Crashes(c, es, fs) {
      if Valid(c, fs) && es <= fs {
        QuietRunsOn(c, es, fs);
      }
    }
  }

  /** Once the pump has exited and Cleanup has stopped the committer, no
      continuation can panic by sending on the closed commitRequests exactly when
      every worker that was launched is poisoning, has finished, or waits for the
      reply to the one call being served and will not retry whatever it is. */
  lemma StopIsSafeExactly(c: Config, es: seq<Event>)
    requires Buffered(c) && Valid(c, es) && Stopped(Run(c, es))
    ensures NeverCrashes(c, es) <==> AllQuiet(c, Run(c, es))
  {
    var s := Run(c, es);
    if AllQuiet(c, s) {
      QuietNeverCrashes(c, es);
    } else {
      var i: nat :| i < |s.pump.workers| && !Quiet(c, s, i);
      var fs := UnquietCrashes(c, es, s, i);
    }
  }

  // ---- The panic happens, in every configuration ----

  lemma LaunchEnds(c: Config)
    ensures var p := LaunchedPump(1);
            P.Enabled(c.pump, p, P.EndLaunch)
            && P.Apply(c.pump, p, P.EndLaunch) == p.(pc := P.Selecting, buffer := [], active := 1)
  {
  }

  lemma CancelIsObserved(c: Config, p: P.State)
    requires p.pc.Selecting?
    ensures P.Apply(c.pump, p, P.Cancel) == p.(cancelled := true)
    ensures P.Enabled(c.pump, p.(cancelled := true), P.ObserveCancel)
    ensures P.Apply(c.pump, p.(cancelled := true), P.ObserveCancel)
            == p.(cancelled := true, pc := P.Exited(P.ContextCancelled))
  {
  }

  /** The pump exits on a cancellation, and the committer is stopped. */
  lemma CancelAndStop(c: Config, es: seq<Event>, s: State) returns (es': seq<Event>, t: State)
    requires Buffered(c) && Valid(c, es) && Run(c, es) == s && s.pump.pc.Selecting?
    requires !s.server.stopped && !s.server.crashed
    ensures Valid(c, es') && Run(c, es') == t && Stopped(t) && t.pump.workers == s.pump.workers
    ensures t.server.pc == s.server.pc && t.server.calls == s.server.calls
  {
    CancelIsObserved(c, s.pump);
    es', t := TakeStep(c, es, s, PumpStep(P.Cancel));
    es', t := TakeStep(c, es', t, PumpStep(P.ObserveCancel));
    es', t := TakeStep(c, es', t, Serve(S.Stop));
  }

  /** In every buffered configuration: one message is launched, the context is
      cancelled, the pump exits, Cleanup stops the idle committer while nobody is
      calling Commit; then the worker's dispatch succeeds, and its Delete panics. */
  lemma StopCanPanic(c: Config) returns (es: seq<Event>, fs: seq<Event>)
    requires Buffered(c)
    ensures Valid(c, es) && Stopped(Run(c, es)) && Run(c, es).server.pc.Idle? && Run(c, es).server.calls == []
    ensures Crashes(c, es, fs)
  {
    var s;
    es := LaunchedRun(c, 1);
    LaunchEnds(c);
    es, s := TakeStep(c, es, WithPump(c, LaunchedPump(1)), PumpStep(P.EndLaunch));
    es, s := CancelAndStop(c, es, s);
    fs := UnquietCrashes(c, es, s, 0);
  }
}
