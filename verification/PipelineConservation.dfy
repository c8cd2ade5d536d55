/** Nothing that was handled is lost: every Delete is a call of Commit, every reply
    of the committer reaches the worker that asked, and every message whose worker
    has finished is covered by a commit or pending in the committer. */
module PipelineConservation {
  import opened Types
  import opened Workers
  import opened Pipeline
  import C = Committer
  import P = Pump
  import S = CommitServer
  import ST = CommitServerTheorems

  /** What every event marks is what it is said to pass to commitFunc. */
  lemma CommitsAreAnnounced(c: Config, es: seq<Event>, e: Event)
    requires Valid(c, es) && Enabled(c, Run(c, es), e)
    ensures var s := Run(c, es);
            Committed(Apply(c, s, e))
            == Committed(s) + if Commits(c, s, e).Some? then [Commits(c, s, e).value] else []
  {
    RunKeepsLinks(c, es);
    StepAnnounces(c, Run(c, es), e);
  }

  lemma StepAnnounces(c: Config, s: State, e: Event)
    requires Enabled(c, s, e) && Links(c, s)
    ensures Committed(Apply(c, s, e))
            == Committed(s) + if Commits(c, s, e).Some? then [Commits(c, s, e).value] else []
  {
    if e.Serve? {
      ST.MarksAreAnnounced(c.committer, s.server, e.a);
    }
  }

  // ---- Every Delete is a call of Commit ----

  /** The workers of the calls of Delete, in trace order. */
  function Deleters(trace: seq<P.Call>): seq<nat> {
    if trace == [] then []
    else
      var call := trace[|trace| - 1];
      Deleters(trace[..|trace| - 1]) + if call.kind == Delete then [call.worker] else []
  }

  /** Message k marked is that of the worker that made delete k. */
  ghost predicate MarkedBy(direct: seq<Message>, ws: seq<Worker>, ds: seq<nat>) {
    && |direct| == |ds|
    && forall k :: 0 <= k < |ds| ==> ds[k] < |ws| && direct[k] == ws[ds[k]].msg
  }

  /** The calls that the committer got are the calls of Delete in the trace. */
  ghost predicate Committing(c: Config, s: State) {
    if Buffered(c) then s.owner == Deleters(s.pump.trace)
    else MarkedBy(s.direct, s.pump.workers, Deleters(s.pump.trace))
  }

  lemma DeletersGrow(trace: seq<P.Call>, call: P.Call)
    ensures Deleters(trace + [call]) == Deleters(trace) + if call.kind == Delete then [call.worker] else []
  {
    assert (trace + [call])[..|trace|] == trace;
  }

  lemma PumpStepKeepsCommitting(c: Config, s: State, p: P.Event)
    requires Enabled(c, s, PumpStep(p)) && Committing(c, s)
    ensures Committing(c, Apply(c, s, PumpStep(p)))
  {
    if p.BeginCall? {
      DeletersGrow(s.pump.trace, P.Call(p.i, NextKind(s.pump.workers[p.i])));
    }
  }

  lemma DeleteEffect(c: Config, s: State, i: nat)
    requires Enabled(c, s, DeleteBegins(i))
    ensures var s', w := Apply(c, s, DeleteBegins(i)), s.pump.workers[i];
            && s'.pump.trace == s.pump.trace + [P.Call(i, Delete)]
            && s'.pump.workers == s.pump.workers[i := Begin(w)]
            && (Buffered(c) ==> s'.owner == s.owner + [i])
            && (!Buffered(c) ==> s'.direct == s.direct + [w.msg])
  {
  }

  lemma MarkedByDelete(direct: seq<Message>, ws: seq<Worker>, ds: seq<nat>, i: nat)
    requires MarkedBy(direct, ws, ds) && i < |ws|
    ensures MarkedBy(direct + [ws[i].msg], ws[i := Begin(ws[i])], ds + [i])
  {
  }

  lemma DeleteKeepsCommitting(c: Config, s: State, i: nat)
    requires Enabled(c, s, DeleteBegins(i)) && Committing(c, s)
    ensures Committing(c, Apply(c, s, DeleteBegins(i)))
  {
    DeleteEffect(c, s, i);
    DeletersGrow(s.pump.trace, P.Call(i, Delete));
    if !Buffered(c) {
      MarkedByDelete(s.direct, s.pump.workers, Deleters(s.pump.trace), i);
    }
  }

  lemma ReturnKeepsCommitting(c: Config, s: State)
    requires Enabled(c, s, DeleteReturns) && Committing(c, s)
    ensures Committing(c, Apply(c, s, DeleteReturns))
  {
  }

  lemma StepKeepsCommitting(c: Config, s: State, e: Event)
    requires Enabled(c, s, e) && Committing(c, s)
    ensures Committing(c, Apply(c, s, e))
  {
    match e
    case PumpStep(p) => PumpStepKeepsCommitting(c, s, p);
    case DeleteBegins(i) => DeleteKeepsCommitting(c, s, i);
    case DeleteReturns => ReturnKeepsCommitting(c, s);
    case _ =>
  }

  /** Every call of Delete is a call of Commit with the worker's message, and there
      are no others: in every run the calls made of a buffered committer, and the
      messages a direct one has marked, are those of the deletes in the trace. */
  lemma {:induction false} EveryDeleteCommits(c: Config, es: seq<Event>)
    requires Valid(c, es)
    ensures Committing(c, Run(c, es))
  {
    if es != [] {
      EveryDeleteCommits(c, es[..|es| - 1]);
      StepKeepsCommitting(c, Run(c, es[..|es| - 1]), es[|es| - 1]);
    }
  }

  // ---- Every reply reaches the worker that asked ----

  /** The replies to the calls of worker i, in the order the calls were made. */
  function RepliesTo(calls: seq<S.Call>, owner: seq<nat>, i: nat): seq<Error>
    requires |owner| == |calls|
  {
    if calls == [] then []
    else
      var n := |calls| - 1;
      RepliesTo(calls[..n], owner[..n], i)
      + if owner[n] == i && calls[n].state.Returned? then [calls[n].state.err] else []
  }

  ghost predicate RepliesReach(ws: seq<Worker>, calls: seq<S.Call>, owner: seq<nat>) {
    && |owner| == |calls|
    && forall i: nat :: i < |ws| ==> RepliesReachWorker(ws, calls, owner, i)
  }

  ghost predicate RepliesReachWorker(ws: seq<Worker>, calls: seq<S.Call>, owner: seq<nat>, i: nat)
    requires i < |ws| && |owner| == |calls|
  {
    ws[i].deletes == RepliesTo(calls, owner, i)
  }

  /** Only the last call of a worker can be unanswered. */
  ghost predicate EarlierReturned(calls: seq<S.Call>, owner: seq<nat>) {
    && |owner| == |calls|
    && forall j, k :: 0 <= j < k < |calls| && owner[j] == owner[k] ==> calls[j].state.Returned?
  }

  lemma {:induction false} NoReplies(calls: seq<S.Call>, owner: seq<nat>, i: nat)
    requires |owner| == |calls| && forall k :: 0 <= k < |owner| ==> owner[k] != i
    ensures RepliesTo(calls, owner, i) == []
  {
    if calls != [] {
      NoReplies(calls[..|calls| - 1], owner[..|calls| - 1], i);
    }
  }

  /** A call moves on without being answered. */
  lemma {:induction false} RepliesStay(calls: seq<S.Call>, owner: seq<nat>, i: nat, k: nat, call: S.Call)
    requires |owner| == |calls| && k < |calls| && !calls[k].state.Returned? && !call.state.Returned?
    ensures RepliesTo(calls[k := call], owner, i) == RepliesTo(calls, owner, i)
  {
    var n := |calls| - 1;
    if k < n {
      assert calls[k := call][..n] == calls[..n][k := call];
      RepliesStay(calls[..n], owner[..n], i, k, call);
    } else {
      assert calls[k := call][..n] == calls[..n];
    }
  }

  /** Call k is answered. */
  lemma {:induction false} ReplyIsAdded(calls: seq<S.Call>, owner: seq<nat>, i: nat, k: nat, call: S.Call)
    requires EarlierReturned(calls, owner) && k < |calls| && !calls[k].state.Returned? && call.state.Returned?
    ensures RepliesTo(calls[k := call], owner, i)
            == RepliesTo(calls, owner, i) + if owner[k] == i then [call.state.err] else []
  {
    var n := |calls| - 1;
    if k < n {
      assert calls[k := call][..n] == calls[..n][k := call];
      ReplyIsAdded(calls[..n], owner[..n], i, k, call);
    } else {
      assert calls[k := call][..n] == calls[..n];
    }
  }

  ghost predicate Conserves(c: Config, s: State) {
    && RepliesReach(s.pump.workers, s.server.calls, s.owner)
    && EarlierReturned(s.server.calls, s.owner)
  }

  lemma PumpStepConserves(c: Config, s: State, p: P.Event)
    requires Buffered(c) && Enabled(c, s, PumpStep(p)) && Conserves(c, s) && Links(c, s)
    ensures Conserves(c, Apply(c, s, PumpStep(p)))
  {
    var ws, calls := s.pump.workers, s.server.calls;
    var ws' := Apply(c, s, PumpStep(p)).pump.workers;
    forall i: nat | i < |ws'| ensures RepliesReachWorker(ws', calls, s.owner, i) {
      if i < |ws| {
        assert RepliesReachWorker(ws, calls, s.owner, i);
      } else {
        NoReplies(calls, s.owner, i);
      }
    }
  }

  lemma DeleteBeginsConserves(c: Config, s: State, i: nat)
    requires Buffered(c) && Enabled(c, s, DeleteBegins(i)) && Conserves(c, s) && Links(c, s)
    ensures Conserves(c, Apply(c, s, DeleteBegins(i)))
  {
    var s' := Apply(c, s, DeleteBegins(i));
    var n := |s.server.calls|;
    assert s'.server.calls[..n] == s.server.calls && s'.owner[..n] == s.owner;
    forall k | 0 <= k < n && s.owner[k] == i ensures s.server.calls[k].state.Returned? {
      assert LinkedTo(s.pump.workers[i], s.server.calls[k]);
    }
    forall j: nat | j < |s'.pump.workers| ensures RepliesReachWorker(s'.pump.workers, s'.server.calls, s'.owner, j) {
      assert RepliesReachWorker(s.pump.workers, s.server.calls, s.owner, j);
    }
  }

  lemma ServeConserves(c: Config, s: State, a: S.Action)
    requires Enabled(c, s, Serve(a)) && Conserves(c, s)
    ensures Conserves(c, Apply(c, s, Serve(a)))
  {
    var calls, calls' := s.server.calls, Apply(c, s, Serve(a)).server.calls;
    forall i: nat | i < |s.pump.workers| ensures RepliesReachWorker(s.pump.workers, calls', s.owner, i) {
      assert RepliesReachWorker(s.pump.workers, calls, s.owner, i);
      if a.Accept? {
        RepliesStay(calls, s.owner, i, a.call, calls'[a.call]);
      }
    }
  }

  lemma DeleteReturnsConserves(c: Config, s: State)
    requires Enabled(c, s, DeleteReturns) && Conserves(c, s)
    requires s.server.calls[s.server.pc.call].state.Waiting?
    requires s.pump.workers[s.owner[s.server.pc.call]].stage.Deleting?
    ensures Conserves(c, Apply(c, s, DeleteReturns))
  {
    var k, s' := s.server.pc.call, Apply(c, s, DeleteReturns);
    var ws, calls, ws', calls' := s.pump.workers, s.server.calls, s'.pump.workers, s'.server.calls;
    forall i: nat | i < |ws'| ensures RepliesReachWorker(ws', calls', s.owner, i) {
      assert RepliesReachWorker(ws, calls, s.owner, i);
      ReplyIsAdded(calls, s.owner, i, k, calls'[k]);
    }
  }

  lemma StepConserves(c: Config, s: State, e: Event)
    requires Buffered(c) && Enabled(c, s, e) && Conserves(c, s) && Links(c, s)
    requires S.Simulates(c.committer, c.start, s.server)
    ensures Conserves(c, Apply(c, s, e))
  {
    match e
    case Deliver(_) =>
      forall i: nat | i < |s.pump.workers|
        ensures RepliesReachWorker(s.pump.workers, s.server.calls, s.owner, i)
      {
      }
    case PumpStep(p) => PumpStepConserves(c, s, p);
    case DeleteBegins(i) => DeleteBeginsConserves(c, s, i);
    case Serve(a) => ServeConserves(c, s, a);
    case DeleteReturns =>
      S.RepliesToWaiting(c.committer, c.start, s.server);
      assert LinkedTo(s.pump.workers[s.owner[s.server.pc.call]], s.server.calls[s.server.pc.call]);
      DeleteReturnsConserves(c, s);
  }

  /** The results that a worker got from Delete, which decide its retries, are the
      replies to its calls of Commit, in order, every one of them and no others. */
  lemma {:induction false} DeletesGetReplies(c: Config, es: seq<Event>)
    requires Buffered(c) && Valid(c, es)
    ensures Conserves(c, Run(c, es))
  {
    if es != [] {
      var prev := es[..|es| - 1];
      DeletesGetReplies(c, prev);
      RunKeepsLinks(c, prev);
      PartsKeepTheirInvariants(c, prev);
      StepConserves(c, Run(c, prev), es[|es| - 1]);
    }
  }

  // ---- What the transporter returns ----

  /** Poison never fails, and Delete does not with a direct committer, so it is
      called once there. */
  ghost predicate Returns(buffered: bool, w: Worker) {
    && (forall k :: 0 <= k < |w.poisons| ==> w.poisons[k].Nil?)
    && (!buffered ==> w.deletes == [] || (w.deletes == [Nil] && !w.stage.Deleting?))
  }

  ghost predicate AllReturn(c: Config, ws: seq<Worker>) {
    forall i :: 0 <= i < |ws| ==> Returns(Buffered(c), ws[i])
  }

  lemma ReturnKeepsReturns(count: int, buffered: bool, w: Worker, r: Error)
    requires WorkerInv(count, w) && w.calling && Returns(buffered, w)
    requires w.stage.Poisoning? || (w.stage.Deleting? && !buffered) ==> r.Nil?
    ensures Returns(buffered, Return(count, w, r))
  {
    if w.stage.Deleting? {
      assert w.deletes + [r] == [r] || buffered;
    }
  }

  /** What a call in progress may return. */
  predicate MayReturn(c: Config, ws: seq<Worker>, p: P.Event) {
    p.ReturnCall? && p.i < |ws| && (ws[p.i].stage.Poisoning? || (ws[p.i].stage.Deleting? && !Buffered(c))) ==> p.r.Nil?
  }

  lemma PumpKeepsReturns(c: Config, s: P.State, p: P.Event)
    requires P.Enabled(c.pump, s, p) && P.WorkersOk(c.pump.retryCount, s.workers)
    requires AllReturn(c, s.workers) && MayReturn(c, s.workers, p)
    ensures AllReturn(c, P.Apply(c.pump, s, p).workers)
  {
    if p.ReturnCall? {
      assert WorkerInv(c.pump.retryCount, s.workers[p.i]) && Returns(Buffered(c), s.workers[p.i]);
      ReturnKeepsReturns(c.pump.retryCount, Buffered(c), s.workers[p.i], p.r);
    }
  }

  lemma StepMayReturn(c: Config, s: State, e: Event)
    requires Enabled(c, s, e) && Links(c, s) && PumpEvent(s, e).Some?
    requires e.DeleteReturns? ==> s.pump.workers[s.owner[s.server.pc.call]].stage.Deleting?
    ensures P.Enabled(c.pump, s.pump, PumpEvent(s, e).value) && MayReturn(c, s.pump.workers, PumpEvent(s, e).value)
  {
  }

  /** In every run Poison and a direct committer's Delete return nil, and with a
      direct committer each message is deleted, and so marked, at most once. */
  lemma {:induction false} TransporterNeverFails(c: Config, es: seq<Event>)
    requires Valid(c, es)
    ensures AllReturn(c, Run(c, es).pump.workers)
  {
    if es != [] {
      var prev := es[..|es| - 1];
      TransporterNeverFails(c, prev);
      PartsKeepTheirInvariants(c, prev);
      RunKeepsLinks(c, prev);
      var s := Run(c, prev);
      if es[|es| - 1].DeleteReturns? {
        S.RepliesToWaiting(c.committer, c.start, s.server);
        assert LinkedTo(s.pump.workers[s.owner[s.server.pc.call]], s.server.calls[s.server.pc.call]);
      }
      var p := PumpEvent(s, es[|es| - 1]);
      if p.Some? {
        StepMayReturn(c, s, es[|es| - 1]);
        PumpKeepsReturns(c, s.pump, p.value);
      }
    }
  }

  // ---- Handled messages are covered ----

  /** The offset is at or below one that is committed or pending in the committer. */
  ghost predicate Covered(s: State, offset: int) {
    C.AtMost(Some(offset), C.Join(C.Watermark(Committed(s)), C.OffsetOf(s.server.fields.lastSeen)))
  }

  lemma {:induction false} HasReply(calls: seq<S.Call>, owner: seq<nat>, i: nat) returns (k: nat)
    requires |owner| == |calls| && RepliesTo(calls, owner, i) != []
    ensures k < |calls| && owner[k] == i && calls[k].state.Returned?
  {
    var n := |calls| - 1;
    if owner[n] == i && calls[n].state.Returned? {
      k := n;
    } else {
      k := HasReply(calls[..n], owner[..n], i);
    }
  }

  lemma {:induction false} WatermarkCovers(ms: seq<Message>, m: Message)
    requires m in ms
    ensures C.AtMost(Some(m.offset), C.Watermark(ms))
  {
    var n := |ms| - 1;
    if m != ms[n] {
      WatermarkCovers(ms[..n], m);
    }
  }

  /** A call that has returned is among the requests of the sequential committer. */
  lemma ReturnedWasRequested(c: Config, s: State, k: nat)
    requires S.Inv(c.committer, c.start, s.server)
    requires k < |s.server.calls| && s.server.calls[k].state.Returned?
    ensures s.server.calls[k].msg in C.Requests(s.server.history)
  {
    var ks := s.server.accepted;
    assert k in ks;
    var i :| 0 <= i < |ks| && ks[i] == k;
    assert i < S.Completed(s.server);
    assert S.Messages(s.server.calls, ks[..S.Completed(s.server)])[i] == s.server.calls[k].msg;
  }

  /** What was requested of the server is marked, pending, or both, or below. */
  lemma ServerCovers(c: C.Config, start: int, s: S.Server, m: Message)
    requires S.Simulates(c, start, s) && m in C.Requests(s.history)
    ensures C.AtMost(Some(m.offset), C.Join(C.Watermark(s.marked), C.OffsetOf(s.fields.lastSeen)))
  {
    WatermarkCovers(C.Requests(s.history), m);
    C.WatermarkCoupling(c, start, s.history);
  }

  lemma {:induction false} TracedDeletes(trace: seq<P.Call>, i: nat)
    requires Delete in P.Project(trace, i)
    ensures i in Deleters(trace)
  {
    var n := |trace| - 1;
    if trace[n].worker != i || trace[n].kind != Delete {
      TracedDeletes(trace[..n], i);
    }
  }

  lemma BufferedCovers(c: Config, s: State, i: nat)
    requires Buffered(c) && S.Inv(c.committer, c.start, s.server) && Links(c, s) && Conserves(c, s)
    requires i < |s.pump.workers| && s.pump.workers[i].deletes != []
    ensures Covered(s, s.pump.workers[i].msg.offset)
  {
    assert RepliesReachWorker(s.pump.workers, s.server.calls, s.owner, i);
    var k := HasReply(s.server.calls, s.owner, i);
    assert LinkedTo(s.pump.workers[i], s.server.calls[k]);
    ReturnedWasRequested(c, s, k);
    ServerCovers(c.committer, c.start, s.server, s.pump.workers[i].msg);
    assert Committed(s) == s.server.marked;
  }

  lemma DirectCovers(c: Config, s: State, i: nat)
    requires !Buffered(c) && Links(c, s) && Committing(c, s) && P.Traced(s.pump.trace, s.pump.workers)
    requires i < |s.pump.workers| && s.pump.workers[i].deletes != []
    ensures Covered(s, s.pump.workers[i].msg.offset)
  {
    var w := s.pump.workers[i];
    assert Block(w)[|Block(w)| - 1] == Delete;
    assert Delete in P.Project(s.pump.trace, i);
    TracedDeletes(s.pump.trace, i);
    WatermarkCovers(s.direct, w.msg);
    assert Committed(s) == s.direct;
  }

  /** In every run, with either committer: the message of a worker that has finished
      and handled it is covered, by a commit at or beyond its offset or by what the
      committer still has pending; and so it is from the first Delete that returned. */
  lemma HandledIsCovered(c: Config, es: seq<Event>, i: nat)
    requires Valid(c, es) && i < |Run(c, es).pump.workers|
    ensures var w := Run(c, es).pump.workers[i];
            w.deletes != [] || ((w.stage.Finishing? || w.stage.Done?) && Handled(w)) ==>
              Covered(Run(c, es), w.msg.offset)
  {
    PartsKeepTheirInvariants(c, es);
    RunKeepsLinks(c, es);
    var s := Run(c, es);
    assert WorkerInv(c.pump.retryCount, s.pump.workers[i]);
    if s.pump.workers[i].deletes != [] {
      if Buffered(c) {
        DeletesGetReplies(c, es);
        BufferedCovers(c, s, i);
      } else {
        EveryDeleteCommits(c, es);
        DirectCovers(c, s, i);
      }
    }
  }
}
