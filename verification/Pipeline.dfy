/** One Kafka partition in one session: ConsumeClaim delivers single messages to
    the pump, whose workers delete a handled message by calling Commit on the
    partition's committer (kafka/sarama_consumer_group_handler.go,
    kafka/transporter.go, core/message_pump.go, kafka/buffered_committer.go).

    The pump and the committer step as in their own modules; the composition
    adds which worker made which call of Commit. */
module Pipeline {
  import opened Types
  import opened Workers
  import C = Committer
  import P = Pump
  import S = CommitServer
  import T = PumpTheorems

  datatype Config = Config(pump: P.Config, committer: C.Config, start: int)

  /** Setup, line 57: with a batch size the committer is buffered. */
  predicate Buffered(c: Config) {
    c.committer.batchSize > 0
  }

  /** `owner[k]` is the worker that made call k of Commit; `direct` is what a
      direct committer has marked. */
  datatype State = State(pump: P.State, server: S.Server, owner: seq<nat>, direct: seq<Message>)

  datatype Event =
    | Deliver(msg: Message)
    | PumpStep(p: P.Event)
    | DeleteBegins(i: nat)
    | Serve(a: S.Action)
    | DeleteReturns

  function Init(c: Config): State {
    State(P.Init, S.Init(c.start), [], [])
  }

  function Delivered(s: State): seq<Message> {
    Flatten(s.pump.received)
  }

  predicate Deletes(s: State, i: nat) {
    i < |s.pump.workers| && s.pump.workers[i].stage.Deleting?
  }

  /** A claim delivers messages in increasing offset; Poison does nothing and
      returns nil; Delete is Commit, so its return is the committer's reply. */
  predicate Enabled(c: Config, s: State, e: Event) {
    !s.server.crashed &&
    match e
    case Deliver(m) =>
      && P.Enabled(c.pump, s.pump, P.Receive([m]))
      && forall i :: 0 <= i < |Delivered(s)| ==> Delivered(s)[i].offset < m.offset
    case PumpStep(p) =>
      && P.Enabled(c.pump, s.pump, p)
      && !p.Receive?
      && (p.BeginCall? ==> !Deletes(s, p.i))
      && (p.ReturnCall? ==> if Deletes(s, p.i) then !Buffered(c) && p.r.Nil?
                            else s.pump.workers[p.i].stage.Poisoning? ==> p.r.Nil?)
    case DeleteBegins(i) => P.Enabled(c.pump, s.pump, P.BeginCall(i)) && Deletes(s, i)
    case Serve(a) => Buffered(c) && S.Enabled(s.server, a) && !a.Invoke? && !a.Reply?
    case DeleteReturns =>
      && S.Enabled(s.server, S.Reply) && s.server.pc.call < |s.owner|
      && P.Enabled(c.pump, s.pump, P.ReturnCall(s.owner[s.server.pc.call], s.server.pc.err))
  }

  /** What the event does to the pump, and what to the committer. */
  function PumpEvent(s: State, e: Event): Option<P.Event> {
    match e
    case Deliver(m) => Some(P.Receive([m]))
    case PumpStep(p) => Some(p)
    case DeleteBegins(i) => Some(P.BeginCall(i))
    case Serve(_) => None
    case DeleteReturns =>
      if s.server.pc.Replying? && s.server.pc.call < |s.owner|
      then Some(P.ReturnCall(s.owner[s.server.pc.call], s.server.pc.err)) else None
  }

  function ServerAction(c: Config, s: State, e: Event): Option<S.Action> {
    match e
    case DeleteBegins(i) => if Buffered(c) && Deletes(s, i) then Some(S.Invoke(s.pump.workers[i].msg)) else None
    case Serve(a) => Some(a)
    case DeleteReturns => Some(S.Reply)
    case _ => None
  }

  function Apply(c: Config, s: State, e: Event): State
    requires Enabled(c, s, e)
  {
    var p, a := PumpEvent(s, e), ServerAction(c, s, e);
    State(
      if p.Some? then P.Apply(c.pump, s.pump, p.value) else s.pump,
      if a.Some? then S.Apply(c.committer, s.server, a.value) else s.server,
      if e.DeleteBegins? && Buffered(c) then s.owner + [e.i] else s.owner,
      if e.DeleteBegins? && !Buffered(c) then s.direct + [s.pump.workers[e.i].msg] else s.direct)
  }

  /** The message that event e passes to commitFunc, if any. */
  function Commits(c: Config, s: State, e: Event): Option<Message>
    requires Enabled(c, s, e)
  {
    match e
    case Serve(a) => S.Commits(c.committer, s.server, a)
    case DeleteBegins(i) => if Buffered(c) then None else Some(s.pump.workers[i].msg)
    case _ => None
  }

  function Committed(s: State): seq<Message> {
    s.direct + s.server.marked
  }

  ghost predicate Valid(c: Config, es: seq<Event>)
    decreases |es|, 0
  {
    es == [] || (Valid(c, es[..|es| - 1]) && Enabled(c, Run(c, es[..|es| - 1]), es[|es| - 1]))
  }

  ghost function Run(c: Config, es: seq<Event>): State
    requires Valid(c, es)
    decreases |es|, 1
  {
    if es == [] then Init(c) else Apply(c, Run(c, es[..|es| - 1]), es[|es| - 1])
  }

  // ---- Invariants ----

  lemma StepKeepsPump(c: Config, s: State, e: Event)
    requires Enabled(c, s, e) && P.Inv(c.pump, s.pump)
    ensures P.Inv(c.pump, Apply(c, s, e).pump)
  {
    var p := PumpEvent(s, e);
    if p.Some? {
      P.StepKeepsInv(c.pump, s.pump, p.value);
    }
  }

  lemma StepKeepsServer(c: Config, s: State, e: Event)
    requires Enabled(c, s, e) && S.Inv(c.committer, c.start, s.server)
    ensures S.Inv(c.committer, c.start, Apply(c, s, e).server)
  {
    var a := ServerAction(c, s, e);
    if a.Some? {
      S.StepKeepsInv(c.committer, c.start, s.server, a.value);
    }
  }

  lemma {:induction false} PartsKeepTheirInvariants(c: Config, es: seq<Event>)
    requires Valid(c, es)
    ensures P.Inv(c.pump, Run(c, es).pump)
    ensures S.Inv(c.committer, c.start, Run(c, es).server)
  {
    if es == [] {
      P.RunKeepsInv(c.pump, []);
      S.RunKeepsInv(c.committer, c.start, []);
    } else {
      var prev := es[..|es| - 1];
      PartsKeepTheirInvariants(c, prev);
      StepKeepsPump(c, Run(c, prev), es[|es| - 1]);
      StepKeepsServer(c, Run(c, prev), es[|es| - 1]);
    }
  }

  /** The worker w of a call: it handled the message, and is blocked in Delete
      until the call returns. */
  ghost predicate LinkedTo(w: Worker, call: S.Call) {
    && call.msg == w.msg
    && Handled(w)
    && (!call.state.Returned? ==> w.stage.Deleting? && w.calling)
  }

  ghost predicate Linked(ws: seq<Worker>, calls: seq<S.Call>, owner: seq<nat>) {
    && |owner| == |calls|
    && (forall k :: 0 <= k < |calls| ==> owner[k] < |ws| && LinkedTo(ws[owner[k]], calls[k]))
    && (forall j, k :: 0 <= j < k < |calls| && !calls[j].state.Returned? && !calls[k].state.Returned? ==>
          owner[j] != owner[k])
  }

  ghost predicate Increasing(ms: seq<Message>) {
    forall i, j :: 0 <= i < j < |ms| ==> ms[i].offset < ms[j].offset
  }

  lemma LinkedLaunch(ws: seq<Worker>, calls: seq<S.Call>, owner: seq<nat>, w: Worker)
    requires Linked(ws, calls, owner)
    ensures Linked(ws + [w], calls, owner)
  {
  }

  /** A worker that is not blocked in Delete moves on. */
  lemma LinkedWorker(ws: seq<Worker>, calls: seq<S.Call>, owner: seq<nat>, i: nat, w: Worker)
    requires Linked(ws, calls, owner) && i < |ws| && !(ws[i].stage.Deleting? && ws[i].calling)
    requires w.msg == ws[i].msg && (Handled(ws[i]) ==> Handled(w))
    ensures Linked(ws[i := w], calls, owner)
  {
  }

  lemma LinkedInvoke(ws: seq<Worker>, calls: seq<S.Call>, owner: seq<nat>, i: nat, call: S.Call)
    requires Linked(ws, calls, owner) && i < |ws| && CanBegin(ws[i]) && ws[i].stage.Deleting? && Handled(ws[i])
    requires call.msg == ws[i].msg
    ensures Linked(ws[i := Begin(ws[i])], calls + [call], owner + [i])
  {
  }

  /** A call moves on without returning. */
  lemma LinkedCall(ws: seq<Worker>, calls: seq<S.Call>, owner: seq<nat>, k: nat, call: S.Call)
    requires Linked(ws, calls, owner) && k < |calls|
    requires call.msg == calls[k].msg && !calls[k].state.Returned?
    ensures Linked(ws, calls[k := call], owner)
  {
  }

  lemma LinkedReturn(ws: seq<Worker>, calls: seq<S.Call>, owner: seq<nat>, k: nat, call: S.Call, w: Worker)
    requires Linked(ws, calls, owner) && k < |calls| && !calls[k].state.Returned?
    requires call.msg == calls[k].msg && call.state.Returned?
    requires w.msg == ws[owner[k]].msg && Handled(w)
    ensures Linked(ws[owner[k] := w], calls[k := call], owner)
  {
  }

  ghost predicate Links(c: Config, s: State) {
    && Linked(s.pump.workers, s.server.calls, s.owner)
    && Increasing(Delivered(s))
    && (if Buffered(c) then s.direct == [] else s.server == S.Init(c.start))
  }

  lemma PumpStepKeepsLinks(c: Config, s: State, p: P.Event)
    requires Enabled(c, s, PumpStep(p)) && P.WorkersOk(c.pump.retryCount, s.pump.workers)
    requires Links(c, s)
    ensures Links(c, Apply(c, s, PumpStep(p)))
  {
    match p
    case Launch =>
      LinkedLaunch(s.pump.workers, s.server.calls, s.owner, Spawn(s.pump.buffer[s.pump.pc.k]));
    case BeginCall(i) =>
      LinkedWorker(s.pump.workers, s.server.calls, s.owner, i, Begin(s.pump.workers[i]));
    case ReturnCall(i, r) =>
      var w := s.pump.workers[i];
      assert WorkerInv(c.pump.retryCount, w);
      ReturnKeepsInv(c.pump.retryCount, w, r);
      if Buffered(c) {
        LinkedWorker(s.pump.workers, s.server.calls, s.owner, i, Return(c.pump.retryCount, w, r));
      }
    case SendToken(i) =>
      LinkedWorker(s.pump.workers, s.server.calls, s.owner, i, s.pump.workers[i].(stage := Done));
    case _ =>
  }

  lemma DeliverKeepsLinks(c: Config, s: State, m: Message)
    requires Enabled(c, s, Deliver(m)) && Links(c, s)
    ensures Links(c, Apply(c, s, Deliver(m)))
  {
  }

  lemma DeleteBeginsKeepsLinks(c: Config, s: State, i: nat)
    requires Enabled(c, s, DeleteBegins(i)) && P.WorkersOk(c.pump.retryCount, s.pump.workers) && Links(c, s)
    ensures Links(c, Apply(c, s, DeleteBegins(i)))
  {
    assert WorkerInv(c.pump.retryCount, s.pump.workers[i]);
    if Buffered(c) {
      var calls := Apply(c, s, DeleteBegins(i)).server.calls;
      LinkedInvoke(s.pump.workers, s.server.calls, s.owner, i, calls[|calls| - 1]);
    }
  }

  lemma DeleteReturnsKeepsLinks(c: Config, s: State)
    requires Enabled(c, s, DeleteReturns) && P.WorkersOk(c.pump.retryCount, s.pump.workers) && Links(c, s)
    requires s.server.calls[s.server.pc.call].state.Waiting?
    ensures Links(c, Apply(c, s, DeleteReturns))
  {
    var k, s' := s.server.pc.call, Apply(c, s, DeleteReturns);
    var w := s.pump.workers[s.owner[k]];
    assert WorkerInv(c.pump.retryCount, w) && LinkedTo(w, s.server.calls[k]);
    ReturnKeepsInv(c.pump.retryCount, w, s.server.pc.err);
    LinkedReturn(s.pump.workers, s.server.calls, s.owner, k, s'.server.calls[k], s'.pump.workers[s.owner[k]]);
  }

  lemma ServeKeepsLinks(c: Config, s: State, a: S.Action)
    requires Enabled(c, s, Serve(a)) && Links(c, s)
    ensures Links(c, Apply(c, s, Serve(a)))
  {
    if a.Accept? {
      LinkedCall(s.pump.workers, s.server.calls, s.owner, a.call, Apply(c, s, Serve(a)).server.calls[a.call]);
    }
  }

  lemma StepKeepsLinks(c: Config, s: State, e: Event)
    requires Enabled(c, s, e) && P.Inv(c.pump, s.pump) && S.Inv(c.committer, c.start, s.server) && Links(c, s)
    ensures Links(c, Apply(c, s, e))
  {
    match e
    case Deliver(m) => DeliverKeepsLinks(c, s, m);
    case PumpStep(p) => PumpStepKeepsLinks(c, s, p);
    case Serve(a) => ServeKeepsLinks(c, s, a);
    case DeleteBegins(i) => DeleteBeginsKeepsLinks(c, s, i);
    case DeleteReturns =>
      S.RepliesToWaiting(c.committer, c.start, s.server);
      DeleteReturnsKeepsLinks(c, s);
  }

  lemma {:induction false} RunKeepsLinks(c: Config, es: seq<Event>)
    requires Valid(c, es)
    ensures Links(c, Run(c, es))
  {
    if es != [] {
      var prev := es[..|es| - 1];
      RunKeepsLinks(c, prev);
      PartsKeepTheirInvariants(c, prev);
      StepKeepsLinks(c, Run(c, prev), es[|es| - 1]);
    }
  }
}
