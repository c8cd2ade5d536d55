/** kafka/buffered_committer.go as a server: the event loop, the callers blocked in
    Commit, and the rendezvous between them on commitRequests and on each
    request's done channel.

    One event is one atomic action. The loop's state while the pre-commit hook
    runs is a state of its own, so other callers can arrive meanwhile. */
module CommitServer {
  import opened Types
  import opened Committer

  /** A call of Commit: blocked in the send, waiting for the reply, or returned. */
  datatype CallState = Sending | Waiting | Returned(err: Error)

  /** The step numbers at which the call was made, accepted and returned are
      history only. */
  datatype Call = Call(msg: Message, state: CallState, invoked: nat, accepted: nat, returned: nat)

  /** `Hooking` is commitAndReset before commitFunc: `cause` is the event being
      served, whose last two fields are not yet known. `Replying` is Complete. */
  datatype Pc = Idle | Hooking(msg: Message, cause: Cause) | Replying(call: nat, err: Error) | Ended

  datatype Cause = ByRequest(call: nat) | ByTick(at: int)

  /** `accepted` lists the calls in the order the loop received them, `history`
      the events the loop has completed. `crashed` is the panic of a send on the
      closed commitRequests. */
  datatype Server = Server(
    pc: Pc, fields: State, marked: seq<Message>, calls: seq<Call>,
    accepted: seq<nat>, history: seq<Event>, stopped: bool, crashed: bool, clock: nat)

  datatype Action =
    | Invoke(msg: Message)
    | Accept(call: nat)
    | TimerFires(at: int)
    | FinishHook(hook: Error, now: int)
    | Reply
    | Stop
    | ObserveStop
    | SendOnClosed(call: nat)

  function Init(start: int): Server {
    Server(Idle, State(0, None, start), [], [], [], [], false, false, 0)
  }

  predicate Enabled(s: Server, e: Action) {
    !s.crashed &&
    match e
    case Invoke(_) => true
    case Accept(k) => s.pc.Idle? && !s.stopped && k < |s.calls| && s.calls[k].state.Sending?
    case TimerFires(_) => s.pc.Idle?
    case FinishHook(_, _) => s.pc.Hooking?
    case Reply => s.pc.Replying? && s.pc.call < |s.calls|
    case Stop => !s.stopped
    case ObserveStop => s.pc.Idle? && s.stopped
    case SendOnClosed(k) => s.stopped && k < |s.calls| && s.calls[k].state.Sending?
  }

  function CauseEvent(s: Server, cause: Cause, hook: Error, now: int): Event {
    match cause
    case ByTick(at) => Tick(at, hook, now)
    case ByRequest(k) => if k < |s.calls| then Request(s.calls[k].msg, hook, now) else Tick(0, hook, now)
  }

  /** Lines 91-101, up to the hook. A request that does not fill the buffer is
      complete at once. */
  function AcceptCall(c: Config, s: Server, k: nat): Server
    requires k < |s.calls|
  {
    var f := Observe(s.fields, s.calls[k].msg);
    var call := s.calls[k].(state := Waiting, accepted := s.clock);
    var s' := s.(fields := f, accepted := s.accepted + [k], calls := s.calls[k := call]);
    if f.observed < c.batchSize then
      s'.(pc := Replying(k, Nil), history := s.history + [Request(s.calls[k].msg, Nil, 0)])
    else
      s'.(pc := Hooking(f.lastSeen.value, ByRequest(k)))
  }

  /** The hook has answered (or there is none): commit and reset, or give up. */
  function Finish(c: Config, s: Server, hook: Error, now: int): Server
    requires s.pc.Hooking?
  {
    var refused := c.hook && !hook.Nil?;
    var s' := if refused then s
              else s.(fields := State(0, None, now), marked := s.marked + [s.pc.msg]);
    s'.(history := s.history + [CauseEvent(s, s.pc.cause, hook, now)],
    pc := if s.pc.cause.ByRequest? then Replying(s.pc.cause.call, if refused then hook else Nil) else Idle)
  }

  function Perform(c: Config, s: Server, e: Action): Server
    requires Enabled(s, e)
  {
    match e
    case Invoke(m) => s.(calls := s.calls + [Call(m, Sending, s.clock, 0, 0)])
    case Accept(k) => AcceptCall(c, s, k)
    case TimerFires(at) =>
      if TickCommits(c, s.fields, at) then s.(pc := Hooking(s.fields.lastSeen.value, ByTick(at)))
      else s.(history := s.history + [Tick(at, Nil, 0)])
    case FinishHook(hook, now) => Finish(c, s, hook, now)
    case Reply =>
      var call := s.calls[s.pc.call].(state := Returned(s.pc.err), returned := s.clock);
      s.(pc := Idle, calls := s.calls[s.pc.call := call])
    case Stop => s.(stopped := true)
    case ObserveStop => s.(pc := Ended)
    case SendOnClosed(_) => s.(crashed := true)
  }

  function Apply(c: Config, s: Server, e: Action): Server
    requires Enabled(s, e)
  {
    Perform(c, s, e).(clock := s.clock + 1)
  }

  /** The message event e passes to commitFunc. */
  function Commits(c: Config, s: Server, e: Action): Option<Message>
    requires Enabled(s, e)
  {
    if e.FinishHook? && !(c.hook && !e.hook.Nil?) then Some(s.pc.msg) else None
  }

  ghost predicate Valid(c: Config, start: int, es: seq<Action>)
    decreases |es|, 0
  {
    es == [] || (Valid(c, start, es[..|es| - 1]) && Enabled(Run(c, start, es[..|es| - 1]), es[|es| - 1]))
  }

  ghost function Run(c: Config, start: int, es: seq<Action>): Server
    requires Valid(c, start, es)
    decreases |es|, 1
  {
    if es == [] then Init(start) else Apply(c, Run(c, start, es[..|es| - 1]), es[|es| - 1])
  }

  // ---- The invariant: the concurrent server simulates the sequential committer ----

  function Messages(calls: seq<Call>, ks: seq<nat>): seq<Message>
    requires Known(calls, ks)
  {
    seq(|ks|, i requires 0 <= i < |ks| => calls[ks[i]].msg)
  }

  ghost predicate Known(calls: seq<Call>, accepted: seq<nat>) {
    forall i :: 0 <= i < |accepted| ==> accepted[i] < |calls|
  }

  /** The call being served, if any, is the last one accepted. */
  ghost predicate Serving(s: Server, k: nat) {
    s.accepted != [] && s.accepted[|s.accepted| - 1] == k && k < |s.calls| && s.calls[k].state.Waiting?
  }

  /** Accepted requests whose event is complete. */
  function Completed(s: Server): nat {
    if s.pc.Hooking? && s.pc.cause.ByRequest? && s.accepted != [] then |s.accepted| - 1 else |s.accepted|
  }

  ghost predicate Simulates(c: Config, start: int, s: Server) {
    var l := RunLog(c, start, s.history);
    && Known(s.calls, s.accepted)
    && s.marked == l.commits
    && Requests(s.history) == Messages(s.calls, s.accepted[..Completed(s)])
    && |l.replies| == Completed(s)
    && match s.pc
       case Idle => s.fields == l.state
       case Ended => s.fields == l.state
       case Replying(k, err) =>
         s.fields == l.state && Serving(s, k) && l.replies != [] && err == l.replies[|l.replies| - 1]
       case Hooking(m, ByTick(at)) => s.fields == l.state && TickCommits(c, l.state, at) && l.state.lastSeen == Some(m)
       case Hooking(m, ByRequest(k)) =>
         && Serving(s, k)
         && s.fields == Observe(l.state, s.calls[k].msg)
         && s.fields.observed >= c.batchSize
         && s.fields.lastSeen == Some(m)
  }

  /** A call has been accepted and not replied to. */
  predicate Open(pc: Pc) {
    pc.Replying? || (pc.Hooking? && pc.cause.ByRequest?)
  }

  /** Every accepted call has had exactly its sequential reply, except the open one. */
  ghost predicate Replied(calls: seq<Call>, accepted: seq<nat>, replies: seq<Error>, open: bool)
    requires Known(calls, accepted)
  {
    forall i :: 0 <= i < |accepted| ==>
      if open && i == |accepted| - 1 then calls[accepted[i]].state.Waiting?
      else i < |replies| && calls[accepted[i]].state == Returned(replies[i])
  }

  /** Each call is accepted at most once, exactly when it is no longer sending, and
      acceptance order is the order of the recorded times. */
  ghost predicate Timed(calls: seq<Call>, accepted: seq<nat>, clock: nat) {
    && Known(calls, accepted)
    && (forall k :: 0 <= k < |calls| ==> CallTimed(calls[k], clock))
    && (forall k :: 0 <= k < |calls| ==> (k in accepted <==> !calls[k].state.Sending?))
    && (forall i, j :: 0 <= i < j < |accepted| ==> calls[accepted[i]].accepted < calls[accepted[j]].accepted)
  }

  ghost predicate CallTimed(k: Call, clock: nat) {
    && k.invoked < clock
    && (!k.state.Sending? ==> k.invoked < k.accepted < clock)
    && (k.state.Returned? ==> k.accepted < k.returned < clock)
  }

  ghost predicate Inv(c: Config, start: int, s: Server) {
    && Simulates(c, start, s)
    && Replied(s.calls, s.accepted, RunLog(c, start, s.history).replies, Open(s.pc))
    && Timed(s.calls, s.accepted, s.clock)
  }

  lemma HistoryGrows(c: Config, start: int, h: seq<Event>, e: Event)
    ensures RunLog(c, start, h + [e]) == Step(c, RunLog(c, start, h), e)
    ensures Requests(h + [e]) == Requests(h) + if e.Request? then [e.msg] else []
  {
  }

  lemma MessagesAppend(calls: seq<Call>, ks: seq<nat>, k: nat)
    requires Known(calls, ks) && k < |calls|
    ensures Known(calls, ks + [k])
    ensures Messages(calls, ks + [k]) == Messages(calls, ks) + [calls[k].msg]
  {
  }

  lemma TimedInvoke(calls: seq<Call>, accepted: seq<nat>, clock: nat, m: Message)
    requires Timed(calls, accepted, clock)
    ensures Timed(calls + [Call(m, Sending, clock, 0, 0)], accepted, clock + 1)
  {
  }

  lemma TimedTick(calls: seq<Call>, accepted: seq<nat>, clock: nat)
    requires Timed(calls, accepted, clock)
    ensures Timed(calls, accepted, clock + 1)
  {
  }

  lemma TimedAccept(calls: seq<Call>, accepted: seq<nat>, clock: nat, k: nat)
    requires Timed(calls, accepted, clock) && k < |calls| && calls[k].state.Sending?
    ensures Timed(calls[k := calls[k].(state := Waiting, accepted := clock)], accepted + [k], clock + 1)
  {
  }

  lemma TimedReply(calls: seq<Call>, accepted: seq<nat>, clock: nat, k: nat, err: Error)
    requires Timed(calls, accepted, clock) && k < |calls| && calls[k].state.Waiting?
    ensures Timed(calls[k := calls[k].(state := Returned(err), returned := clock)], accepted, clock + 1)
  {
  }

  lemma InvokeKeepsInv(c: Config, start: int, s: Server, m: Message)
    requires Inv(c, start, s) && Enabled(s, Invoke(m))
    ensures Inv(c, start, Apply(c, s, Invoke(m)))
  {
    var s' := Apply(c, s, Invoke(m));
    var done := s.accepted[..Completed(s)];
    assert Messages(s'.calls, done) == Messages(s.calls, done);
    TimedInvoke(s.calls, s.accepted, s.clock, m);
  }

  lemma AcceptKeepsSimulates(c: Config, start: int, s: Server, k: nat)
    requires Simulates(c, start, s) && Enabled(s, Accept(k))
    ensures Simulates(c, start, Apply(c, s, Accept(k)))
  {
    var s' := Apply(c, s, Accept(k));
    assert s.accepted[..|s.accepted|] == s.accepted;
    assert Messages(s'.calls, s.accepted) == Messages(s.calls, s.accepted);
    if s'.pc.Replying? {
      HistoryGrows(c, start, s.history, Request(s.calls[k].msg, Nil, 0));
      MessagesAppend(s'.calls, s.accepted, k);
      assert s'.accepted[..|s'.accepted|] == s.accepted + [k];
    } else {
      assert s'.accepted[..|s'.accepted| - 1] == s.accepted;
    }
  }

  lemma RepliedAccept(calls: seq<Call>, accepted: seq<nat>, replies: seq<Error>, more: seq<Error>, k: nat, call: Call)
    requires Known(calls, accepted) && Replied(calls, accepted, replies, false)
    requires k < |calls| && k !in accepted && call.state.Waiting?
    ensures Known(calls[k := call], accepted + [k])
    ensures Replied(calls[k := call], accepted + [k], replies + more, true)
  {
  }

  lemma AcceptKeepsInv(c: Config, start: int, s: Server, k: nat)
    requires Inv(c, start, s) && Enabled(s, Accept(k))
    ensures Inv(c, start, Apply(c, s, Accept(k)))
  {
    AcceptKeepsSimulates(c, start, s, k);
    TimedAccept(s.calls, s.accepted, s.clock, k);
    HistoryGrows(c, start, s.history, Request(s.calls[k].msg, Nil, 0));
    var replies := RunLog(c, start, s.history).replies;
    RepliedAccept(s.calls, s.accepted, replies, [], k, s.calls[k].(state := Waiting, accepted := s.clock));
    RepliedAccept(s.calls, s.accepted, replies, [Nil], k, s.calls[k].(state := Waiting, accepted := s.clock));
    assert replies + [] == replies;
  }

  lemma FinishKeepsSimulates(c: Config, start: int, s: Server, hook: Error, now: int)
    requires Simulates(c, start, s) && Enabled(s, FinishHook(hook, now))
    ensures Simulates(c, start, Apply(c, s, FinishHook(hook, now)))
  {
  }

  lemma FinishKeepsInv(c: Config, start: int, s: Server, hook: Error, now: int)
    requires Inv(c, start, s) && Enabled(s, FinishHook(hook, now))
    ensures Inv(c, start, Apply(c, s, FinishHook(hook, now)))
  {
    FinishKeepsSimulates(c, start, s, hook, now);
    HistoryGrows(c, start, s.history, CauseEvent(s, s.pc.cause, hook, now));
    TimedTick(s.calls, s.accepted, s.clock);
  }

  lemma RepliedReply(calls: seq<Call>, accepted: seq<nat>, replies: seq<Error>, clock: nat, k: nat, call: Call)
    requires Timed(calls, accepted, clock) && Replied(calls, accepted, replies, true)
    requires accepted != [] && accepted[|accepted| - 1] == k && |replies| == |accepted|
    requires call.state == Returned(replies[|replies| - 1])
    ensures Replied(calls[k := call], accepted, replies, false)
  {
  }

  lemma ReplyKeepsInv(c: Config, start: int, s: Server)
    requires Inv(c, start, s) && Enabled(s, Reply)
    ensures Inv(c, start, Apply(c, s, Reply))
  {
    var k := s.pc.call;
    var call := s.calls[k].(state := Returned(s.pc.err), returned := s.clock);
    assert s.accepted[..|s.accepted|] == s.accepted;
    assert Messages(s.calls[k := call], s.accepted) == Messages(s.calls, s.accepted);
    TimedReply(s.calls, s.accepted, s.clock, k, s.pc.err);
    RepliedReply(s.calls, s.accepted, RunLog(c, start, s.history).replies, s.clock, k, call);
  }

  lemma TimerKeepsInv(c: Config, start: int, s: Server, at: int)
    requires Inv(c, start, s) && Enabled(s, TimerFires(at))
    ensures Inv(c, start, Apply(c, s, TimerFires(at)))
  {
    TimedTick(s.calls, s.accepted, s.clock);
    if !TickCommits(c, s.fields, at) {
      HistoryGrows(c, start, s.history, Tick(at, Nil, 0));
      assert Requests(s.history) + [] == Requests(s.history);
    }
  }

  lemma StopKeepsInv(c: Config, start: int, s: Server, e: Action)
    requires Inv(c, start, s) && Enabled(s, e) && (e.Stop? || e.ObserveStop? || e.SendOnClosed?)
    ensures Inv(c, start, Apply(c, s, e))
  {
    TimedTick(s.calls, s.accepted, s.clock);
  }

  lemma StepKeepsInv(c: Config, start: int, s: Server, e: Action)
    requires Inv(c, start, s) && Enabled(s, e)
    ensures Inv(c, start, Apply(c, s, e))
  {
    match e
    case Invoke(m) => InvokeKeepsInv(c, start, s, m);
    case Accept(k) => AcceptKeepsInv(c, start, s, k);
    case FinishHook(hook, now) => FinishKeepsInv(c, start, s, hook, now);
    case Reply => ReplyKeepsInv(c, start, s);
    case TimerFires(at) => TimerKeepsInv(c, start, s, at);
    case _ => StopKeepsInv(c, start, s, e);
  }

  lemma {:induction false} RunKeepsInv(c: Config, start: int, es: seq<Action>)
    requires Valid(c, start, es)
    ensures Inv(c, start, Run(c, start, es))
  {
    if es != [] {
      RunKeepsInv(c, start, es[..|es| - 1]);
      StepKeepsInv(c, start, Run(c, start, es[..|es| - 1]), es[|es| - 1]);
    }
  }

  /** The loop replies only to a call that waits. */
  lemma RepliesToWaiting(c: Config, start: int, s: Server)
    requires Simulates(c, start, s) && s.pc.Replying?
    ensures s.pc.call < |s.calls| && s.calls[s.pc.call].state.Waiting?
  {
  }
}
