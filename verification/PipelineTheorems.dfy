/** How far a committed offset can run ahead of unfinished work. */
module PipelineTheorems {
  import opened Types
  import opened Workers
  import opened Pipeline
  import C = Committer
  import P = Pump
  import S = CommitServer
  import T = PumpTheorems

  /** Positions of the messages delivered in this session that have a smaller
      offset and have been neither handled nor poisoned. */
  function Unsettled(s: State, offset: int): set<nat> {
    set i: nat | i < |Delivered(s)| && Delivered(s)[i].offset < offset && !SettledAt(s, i)
  }

  predicate SettledAt(s: State, i: nat) {
    i < |s.pump.workers| && Settled(s.pump.workers[i])
  }

  lemma WorkersAreDelivered(s: State, i: nat)
    requires P.Fifo(s.pump) && i < |s.pump.workers|
    ensures i < |Delivered(s)| && Delivered(s)[i] == s.pump.workers[i].msg
  {
  }

  /** Of the messages before that of worker j, at most MaxHandlers-1 are unsettled. */
  lemma GapBound(c: Config, s: State, j: nat)
    requires P.Inv(c.pump, s.pump) && Increasing(Delivered(s)) && j < |s.pump.workers|
    ensures |Unsettled(s, s.pump.workers[j].msg.offset)| <= c.pump.maxHandlers - 1
  {
    var ws := s.pump.workers;
    WorkersAreDelivered(s, j);
    var open := P.Below(j) - P.DoneSet(ws, j);
    forall i | i in Unsettled(s, ws[j].msg.offset) ensures i in open {
      assert i < j;
      assert WorkerInv(c.pump.retryCount, ws[i]);
    }
    P.SubsetSize(Unsettled(s, ws[j].msg.offset), open);
    T.UnfinishedBefore(c.pump, s.pump, j);
  }

  lemma RequestHasCall(calls: seq<S.Call>, ks: seq<nat>, m: Message)
    requires S.Known(calls, ks) && m in S.Messages(calls, ks)
    ensures exists k :: 0 <= k < |calls| && calls[k].msg == m
  {
  }

  /** What the hook guards is the message of some call. */
  lemma HookedHasCall(c: C.Config, start: int, s: S.Server)
    requires S.Simulates(c, start, s) && s.pc.Hooking?
    ensures exists k :: 0 <= k < |s.calls| && s.calls[k].msg == s.pc.msg
  {
    C.LastSeenWasRequested(c, start, s.history);
    if s.pc.msg in C.Requests(s.history) {
      RequestHasCall(s.calls, s.accepted[..S.Completed(s)], s.pc.msg);
    } else {
      assert s.pc.cause.ByRequest? && s.calls[s.pc.cause.call].msg == s.pc.msg;
    }
  }

  lemma CommittedHasWorker(c: Config, s: State, e: Event) returns (j: nat)
    requires P.WorkersOk(c.pump.retryCount, s.pump.workers) && S.Simulates(c.committer, c.start, s.server)
    requires Links(c, s) && Enabled(c, s, e) && Commits(c, s, e).Some?
    ensures j < |s.pump.workers| && s.pump.workers[j].msg == Commits(c, s, e).value && Handled(s.pump.workers[j])
  {
    if e.DeleteBegins? {
      j := e.i;
      assert WorkerInv(c.pump.retryCount, s.pump.workers[j]);
    } else {
      HookedHasCall(c.committer, c.start, s.server);
      var k :| 0 <= k < |s.server.calls| && s.server.calls[k].msg == s.server.pc.msg;
      j := s.owner[k];
      assert LinkedTo(s.pump.workers[j], s.server.calls[k]);
    }
  }

  /** The commit gap. In every reachable state of the pipeline, with either
      committer, when an offset is passed to commitFunc: the message itself has
      been handled, and at most MaxHandlers-1 of the messages delivered with a
      smaller offset have been neither handled nor poisoned; with one handler
      there are none. */
  lemma CommitGap(c: Config, es: seq<Event>, e: Event)
    requires Valid(c, es) && Enabled(c, Run(c, es), e) && Commits(c, Run(c, es), e).Some?
    ensures var s, m := Run(c, es), Commits(c, Run(c, es), e).value;
            && (exists j :: 0 <= j < |s.pump.workers| && s.pump.workers[j].msg == m && Handled(s.pump.workers[j]))
            && |Unsettled(s, m.offset)| <= c.pump.maxHandlers - 1
            && (c.pump.maxHandlers == 1 ==> Unsettled(s, m.offset) == {})
  {
    PartsKeepTheirInvariants(c, es);
    RunKeepsLinks(c, es);
    var s := Run(c, es);
    var j := CommittedHasWorker(c, s, e);
    GapBound(c, s, j);
  }

  lemma ReplyDeliverable(c: Config, s: State)
    requires S.Simulates(c.committer, c.start, s.server) && Links(c, s)
    requires s.server.pc.Replying? && !s.server.crashed
    ensures Enabled(c, s, DeleteReturns)
  {
  }

  /** The committer's reply always finds the worker that asked for it blocked in
      Delete, so the event loop never hangs in Complete. */
  lemma ReplyNeverBlocks(c: Config, es: seq<Event>)
    requires Valid(c, es) && Run(c, es).server.pc.Replying? && !Run(c, es).server.crashed
    ensures Enabled(c, Run(c, es), DeleteReturns)
  {
    PartsKeepTheirInvariants(c, es);
    RunKeepsLinks(c, es);
    ReplyDeliverable(c, Run(c, es));
  }

  // ---- One handler: commits in order ----

  /** Calls of Commit come one at a time, by workers in launch order, and are
      accepted in that order. */
  ghost predicate OneAtATime(calls: seq<S.Call>, owner: seq<nat>, accepted: seq<nat>) {
    && |owner| == |calls|
    && (forall k :: 0 <= k < |calls| - 1 ==> calls[k].state.Returned?)
    && (forall j, k :: 0 <= j <= k < |owner| ==> owner[j] <= owner[k])
    && |accepted| == |calls| - (if calls != [] && calls[|calls| - 1].state.Sending? then 1 else 0)
    && (forall i :: 0 <= i < |accepted| ==> accepted[i] == i)
  }

  ghost predicate DirectOrder(ws: seq<Worker>, direct: seq<Message>) {
    && C.Nondecreasing(direct)
    && (direct != [] ==> ws != [] && C.AllAtMost(direct, ws[|ws| - 1].msg.offset))
  }

  ghost predicate OrderInv(c: Config, s: State) {
    && OneAtATime(s.server.calls, s.owner, s.server.accepted)
    && DirectOrder(s.pump.workers, s.direct)
    && (if Buffered(c) then s.direct == [] else s.server.marked == [])
  }

  lemma AllReturnedBeforeDelete(c: Config, s: State, i: nat)
    requires c.pump.maxHandlers == 1 && P.Inv(c.pump, s.pump) && Links(c, s)
    requires i < |s.pump.workers| && CanBegin(s.pump.workers[i])
    ensures i == |s.pump.workers| - 1
    ensures forall k :: 0 <= k < |s.server.calls| ==> s.server.calls[k].state.Returned?
    ensures forall k :: 0 <= k < |s.owner| ==> s.owner[k] <= i
  {
    T.OnlyLastActs(c.pump, s.pump, i);
    forall k | 0 <= k < |s.server.calls|
      ensures s.server.calls[k].state.Returned? && s.owner[k] <= i
    {
      assert LinkedTo(s.pump.workers[s.owner[k]], s.server.calls[k]);
      if !s.server.calls[k].state.Returned? {
        T.OnlyLastActs(c.pump, s.pump, s.owner[k]);
      }
    }
  }

  lemma LaunchKeepsDirectOrder(ws: seq<Worker>, direct: seq<Message>, w: Worker)
    requires DirectOrder(ws, direct)
    requires ws != [] ==> ws[|ws| - 1].msg.offset < w.msg.offset
    ensures DirectOrder(ws + [w], direct)
  {
  }

  lemma LaunchInOrder(c: Config, s: State, m: Message)
    requires P.Fifo(s.pump) && P.Waiting(s.pump) != [] && m == P.Waiting(s.pump)[0] && Increasing(Delivered(s))
    requires s.pump.workers != []
    ensures s.pump.workers[|s.pump.workers| - 1].msg.offset < m.offset
  {
    var ws := s.pump.workers;
    WorkersAreDelivered(s, |ws| - 1);
    assert Delivered(s)[|ws|] == (P.Messages(ws) + P.Waiting(s.pump))[|ws|] == m;
  }

  lemma LaunchKeepsOrder(c: Config, s: State)
    requires Enabled(c, s, PumpStep(P.Launch)) && P.Fifo(s.pump)
    requires Increasing(Delivered(s)) && DirectOrder(s.pump.workers, s.direct)
    ensures DirectOrder(Apply(c, s, PumpStep(P.Launch)).pump.workers, s.direct)
  {
    var m := s.pump.buffer[s.pump.pc.k];
    if s.pump.workers != [] {
      LaunchInOrder(c, s, m);
    }
    LaunchKeepsDirectOrder(s.pump.workers, s.direct, Spawn(m));
  }

  lemma WorkerStepKeepsOrder(c: Config, s: State, p: P.Event)
    requires Enabled(c, s, PumpStep(p)) && !p.Launch? && P.WorkersOk(c.pump.retryCount, s.pump.workers)
    requires DirectOrder(s.pump.workers, s.direct)
    ensures DirectOrder(Apply(c, s, PumpStep(p)).pump.workers, s.direct)
  {
  }

  lemma PumpStepKeepsOrder(c: Config, s: State, p: P.Event)
    requires Enabled(c, s, PumpStep(p)) && P.Fifo(s.pump) && P.WorkersOk(c.pump.retryCount, s.pump.workers)
    requires Increasing(Delivered(s)) && OrderInv(c, s)
    ensures OrderInv(c, Apply(c, s, PumpStep(p)))
  {
    if p.Launch? {
      LaunchKeepsOrder(c, s);
    } else {
      WorkerStepKeepsOrder(c, s, p);
    }
  }

  lemma OneAtATimeInvoke(calls: seq<S.Call>, owner: seq<nat>, accepted: seq<nat>, call: S.Call, i: nat)
    requires OneAtATime(calls, owner, accepted) && call.state.Sending?
    requires forall k :: 0 <= k < |calls| ==> calls[k].state.Returned?
    requires forall k :: 0 <= k < |owner| ==> owner[k] <= i
    ensures OneAtATime(calls + [call], owner + [i], accepted)
  {
  }

  lemma DirectOrderAppend(ws: seq<Worker>, direct: seq<Message>, w: Worker)
    requires DirectOrder(ws, direct) && ws != [] && w.msg == ws[|ws| - 1].msg
    ensures DirectOrder(ws[|ws| - 1 := w], direct + [w.msg])
    ensures DirectOrder(ws[|ws| - 1 := w], direct)
  {
  }

  lemma DeleteKeepsOrder(c: Config, s: State, i: nat)
    requires c.pump.maxHandlers == 1 && P.Inv(c.pump, s.pump) && Links(c, s)
    requires Enabled(c, s, DeleteBegins(i)) && OrderInv(c, s)
    ensures OrderInv(c, Apply(c, s, DeleteBegins(i)))
  {
    var w := s.pump.workers[i];
    AllReturnedBeforeDelete(c, s, i);
    OneAtATimeInvoke(s.server.calls, s.owner, s.server.accepted, S.Call(w.msg, S.Sending, s.server.clock, 0, 0), i);
    DirectOrderAppend(s.pump.workers, s.direct, Begin(w));
  }

  lemma ServeKeepsOrder(c: Config, s: State, a: S.Action)
    requires Enabled(c, s, Serve(a)) && OrderInv(c, s)
    ensures OrderInv(c, Apply(c, s, Serve(a)))
  {
  }

  lemma ReturnKeepsOrder(c: Config, s: State)
    requires Enabled(c, s, DeleteReturns) && OrderInv(c, s)
    requires s.server.calls[s.server.pc.call].state.Waiting?
    ensures OrderInv(c, Apply(c, s, DeleteReturns))
  {
  }

  lemma StepKeepsOrder(c: Config, s: State, e: Event)
    requires c.pump.maxHandlers == 1 && Enabled(c, s, e)
    requires P.Inv(c.pump, s.pump) && S.Inv(c.committer, c.start, s.server) && Links(c, s) && OrderInv(c, s)
    ensures OrderInv(c, Apply(c, s, e))
  {
    match e
    case Deliver(_) =>
    case PumpStep(p) => PumpStepKeepsOrder(c, s, p);
    case DeleteBegins(i) => DeleteKeepsOrder(c, s, i);
    case Serve(a) => ServeKeepsOrder(c, s, a);
    case DeleteReturns =>
      S.RepliesToWaiting(c.committer, c.start, s.server);
      ReturnKeepsOrder(c, s);
  }

  lemma {:induction false} RunKeepsOrder(c: Config, es: seq<Event>)
    requires c.pump.maxHandlers == 1 && Valid(c, es)
    ensures OrderInv(c, Run(c, es))
  {
    if es != [] {
      var prev := es[..|es| - 1];
      RunKeepsOrder(c, prev);
      PartsKeepTheirInvariants(c, prev);
      RunKeepsLinks(c, prev);
      StepKeepsOrder(c, Run(c, prev), es[|es| - 1]);
    }
  }

  lemma WorkerOffsetsIncrease(s: State, i: nat, j: nat)
    requires P.Fifo(s.pump) && Increasing(Delivered(s)) && i <= j < |s.pump.workers|
    ensures s.pump.workers[i].msg.offset <= s.pump.workers[j].msg.offset
  {
    WorkersAreDelivered(s, i);
    WorkersAreDelivered(s, j);
  }

  lemma RequestsInOrder(c: Config, s: State)
    requires P.Fifo(s.pump) && S.Simulates(c.committer, c.start, s.server) && Links(c, s) && OrderInv(c, s)
    ensures C.Nondecreasing(C.Requests(s.server.history))
  {
    var n := S.Completed(s.server);
    var ms := S.Messages(s.server.calls, s.server.accepted[..n]);
    forall i, j | 0 <= i <= j < |ms| ensures ms[i].offset <= ms[j].offset {
      assert LinkedTo(s.pump.workers[s.owner[i]], s.server.calls[i]);
      assert LinkedTo(s.pump.workers[s.owner[j]], s.server.calls[j]);
      WorkerOffsetsIncrease(s, s.owner[i], s.owner[j]);
    }
  }

  lemma OrderedState(c: Config, s: State)
    requires P.Fifo(s.pump) && S.Simulates(c.committer, c.start, s.server) && Links(c, s) && OrderInv(c, s)
    ensures C.Nondecreasing(Committed(s))
  {
    if Buffered(c) {
      RequestsInOrder(c, s);
      C.OrderedRequestsOrderedCommits(c.committer, c.start, s.server.history);
      assert Committed(s) == s.server.marked;
    } else {
      assert Committed(s) == s.direct;
    }
  }

  /** With one handler the offsets passed to commitFunc never go back. */
  lemma CommitsInOrderWithOneHandler(c: Config, es: seq<Event>)
    requires c.pump.maxHandlers == 1 && Valid(c, es)
    ensures C.Nondecreasing(Committed(Run(c, es)))
  {
    PartsKeepTheirInvariants(c, es);
    RunKeepsLinks(c, es);
    RunKeepsOrder(c, es);
    OrderedState(c, Run(c, es));
  }
}
