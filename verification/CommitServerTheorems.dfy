/** What every run of the commit server keeps, stated against the actions that
    happened: the calls made and accepted, the ticks, and the hook's answers. */
module CommitServerTheorems {
  import opened Types
  import opened Committer
  import opened CommitServer

  // ---- What the event loop was told ----

  /** The messages of the calls made, in the order made. */
  function Invoked(es: seq<Action>): seq<Message> {
    if es == [] then []
    else
      var e := es[|es| - 1];
      Invoked(es[..|es| - 1]) + if e.Invoke? then [e.msg] else []
  }

  /** The calls accepted, in the order accepted. */
  function Accepted(es: seq<Action>): seq<nat> {
    if es == [] then []
    else
      var e := es[|es| - 1];
      Accepted(es[..|es| - 1]) + if e.Accept? then [e.call] else []
  }

  function Answered(e: Event, hook: Error, now: int): Event {
    match e
    case Request(m, _, _) => Request(m, hook, now)
    case Tick(at, _, _) => Tick(at, hook, now)
  }

  function AnswerLast(told: seq<Event>, hook: Error, now: int): seq<Event> {
    if told == [] then [] else told[..|told| - 1] + [Answered(told[|told| - 1], hook, now)]
  }

  /** The ticks and the accepted requests, each with the answer of the hook and the
      clock reading that came for it, if any did. */
  function Told(es: seq<Action>): seq<Event> {
    if es == [] then []
    else
      var prev, e := es[..|es| - 1], es[|es| - 1];
      match e
      case TimerFires(at) => Told(prev) + [Tick(at, Nil, 0)]
      case Accept(k) => Told(prev) + if k < |Invoked(prev)| then [Request(Invoked(prev)[k], Nil, 0)] else []
      case FinishHook(hook, now) => AnswerLast(Told(prev), hook, now)
      case _ => Told(prev)
  }

  /** Of what it was told, the part that the loop has dealt with. */
  function DealtWith(es: seq<Action>, hooking: bool): seq<Event> {
    if hooking && Told(es) != [] then Told(es)[..|Told(es)| - 1] else Told(es)
  }

  ghost predicate CallsAre(calls: seq<Call>, ms: seq<Message>) {
    |calls| == |ms| && forall k :: 0 <= k < |calls| ==> calls[k].msg == ms[k]
  }

  /** The event in progress, not yet answered. */
  function InProgress(s: Server): seq<Event> {
    if s.pc.Hooking? then [CauseEvent(s, s.pc.cause, Nil, 0)] else []
  }

  ghost predicate KeepsAccount(s: Server, invoked: seq<Message>, accepted: seq<nat>, told: seq<Event>) {
    CallsAre(s.calls, invoked) && s.accepted == accepted && told == s.history + InProgress(s)
  }

  lemma StepKeepsAccount(c: Config, s: Server, e: Action, ms: seq<Message>, ks: seq<nat>, told: seq<Event>)
    requires Enabled(s, e) && KeepsAccount(s, ms, ks, told)
    requires s.pc.Hooking? && s.pc.cause.ByRequest? ==> s.pc.cause.call < |s.calls|
    ensures var told' := match e
                         case TimerFires(at) => told + [Tick(at, Nil, 0)]
                         case Accept(k) => told + if k < |ms| then [Request(ms[k], Nil, 0)] else []
                         case FinishHook(hook, now) => AnswerLast(told, hook, now)
                         case _ => told;
            KeepsAccount(Apply(c, s, e), ms + (if e.Invoke? then [e.msg] else []),
                         ks + (if e.Accept? then [e.call] else []), told')
  {
  }

  lemma ServedCallExists(c: Config, start: int, s: Server)
    requires Simulates(c, start, s) && s.pc.Hooking? && s.pc.cause.ByRequest?
    ensures s.pc.cause.call < |s.calls|
  {
  }

  /** The server's record is what happened: every call, acceptance, tick, answer of
      the hook and clock reading, in order, none added or left out. */
  lemma {:induction false} RecordIsTrue(c: Config, start: int, es: seq<Action>)
    requires Valid(c, start, es)
    ensures KeepsAccount(Run(c, start, es), Invoked(es), Accepted(es), Told(es))
    ensures Run(c, start, es).history == DealtWith(es, Run(c, start, es).pc.Hooking?)
  {
    if es != [] {
      var prev := es[..|es| - 1];
      RecordIsTrue(c, start, prev);
      RunKeepsInv(c, start, prev);
      var s := Run(c, start, prev);
      if s.pc.Hooking? && s.pc.cause.ByRequest? {
        ServedCallExists(c, start, s);
      }
      StepKeepsAccount(c, s, es[|es| - 1], Invoked(prev), Accepted(prev), Told(prev));
    }
  }

  // ---- Linearizability ----

  /** A call that has returned was told what the sequential committer replies. */
  ghost predicate SequentialReply(calls: seq<Call>, k: nat, replies: seq<Error>, i: nat) {
    k < |calls| && (calls[k].state.Returned? ==> i < |replies| && calls[k].state.err == replies[i])
  }

  /** However the calls of Commit interleave with each other and with the timer:
      what was committed, and what every returned call was told, is what the
      sequential committer does when it is given the calls in acceptance order,
      between the ticks that fired, with the answers that the hook gave; and when
      the loop is ready for its next event, every accepted call has returned. */
  lemma Linearizable(c: Config, start: int, es: seq<Action>)
    requires Valid(c, start, es)
    ensures var s := Run(c, start, es);
            var told := DealtWith(es, s.pc.Hooking?);
            var l := RunLog(c, start, told);
            && s.marked == l.commits
            && s.accepted == Accepted(es) && Known(s.calls, s.accepted) && CallsAre(s.calls, Invoked(es))
            && Requests(told) == Messages(s.calls, s.accepted[..Completed(s)])
            && (forall i: nat :: i < |s.accepted| ==> SequentialReply(s.calls, s.accepted[i], l.replies, i))
            && (s.pc.Idle? || s.pc.Ended? ==>
                  && s.fields == l.state && told == Told(es)
                  && Completed(s) == |s.accepted|
                  && forall i :: 0 <= i < |s.accepted| ==> s.calls[s.accepted[i]].state.Returned?)
  {
    RunKeepsInv(c, start, es);
    RecordIsTrue(c, start, es);
  }

  /** What is marked is what is announced as passed to commitFunc. */
  lemma MarksAreAnnounced(c: Config, s: Server, e: Action)
    requires Enabled(s, e)
    ensures Apply(c, s, e).marked
            == s.marked + if Commits(c, s, e).Some? then [Commits(c, s, e).value] else []
  {
  }

  // ---- Real time ----

  /** Call k is made, or answered, by the action at position p. */
  predicate InvokedAt(es: seq<Action>, p: nat, k: nat) {
    p < |es| && es[p].Invoke? && |Invoked(es[..p])| == k
  }

  ghost predicate AnsweredAt(c: Config, start: int, es: seq<Action>, p: nat, k: nat) {
    && p < |es| && es[p] == Reply
    && Valid(c, start, es[..p]) && Run(c, start, es[..p]).pc.Replying? && Run(c, start, es[..p]).pc.call == k
  }

  lemma InvokedKeepsTime(c: Config, start: int, es: seq<Action>, k: nat, p: nat)
    requires Valid(c, start, es) && InvokedAt(es, p, k)
    ensures k < |Run(c, start, es).calls| && Run(c, start, es).calls[k].invoked == p
    ensures Run(c, start, es).clock == |es|
  {
    ClockCounts(c, start, es);
    var prev := es[..|es| - 1];
    RecordIsTrue(c, start, prev);
    ClockCounts(c, start, prev);
    if p < |prev| {
      assert prev[..p] == es[..p];
      InvokedKeepsTime(c, start, prev, k, p);
    }
  }

  lemma {:induction false} ClockCounts(c: Config, start: int, es: seq<Action>)
    requires Valid(c, start, es)
    ensures Run(c, start, es).clock == |es|
  {
    if es != [] {
      ClockCounts(c, start, es[..|es| - 1]);
    }
  }

  lemma AnsweredKeepsTime(c: Config, start: int, es: seq<Action>, k: nat, p: nat)
    requires Valid(c, start, es) && AnsweredAt(c, start, es, p, k)
    ensures k < |Run(c, start, es).calls| && Run(c, start, es).calls[k].state.Returned?
    ensures Run(c, start, es).calls[k].returned == p
  {
    var prev := es[..|es| - 1];
    ClockCounts(c, start, prev);
    if p < |prev| {
      assert prev[..p] == es[..p];
      AnsweredKeepsTime(c, start, prev, k, p);
      ReplyIsFinal(c, start, prev, es[|es| - 1], k);
    } else {
      assert es[..p] == prev;
    }
  }

  /** Acceptance order respects real time: a call that was answered before another
      was made precedes it; and a call is accepted once, or not yet. */
  lemma RealTimeOrder(c: Config, start: int, es: seq<Action>, a: nat, p: nat, b: nat, q: nat)
    requires Valid(c, start, es) && AnsweredAt(c, start, es, p, a) && InvokedAt(es, q, b) && p < q
    ensures var ks := Accepted(es);
            && a in ks
            && (forall i, j :: 0 <= i < |ks| && 0 <= j < |ks| && ks[i] == a && ks[j] == b ==> i < j)
            && (forall i, j :: 0 <= i < j < |ks| ==> ks[i] != ks[j])
  {
    RunKeepsInv(c, start, es);
    RecordIsTrue(c, start, es);
    AnsweredKeepsTime(c, start, es, a, p);
    InvokedKeepsTime(c, start, es, b, q);
    OrderedByTime(Run(c, start, es), a, b);
  }

  lemma OrderedByTime(s: Server, a: nat, b: nat)
    requires Timed(s.calls, s.accepted, s.clock) && a < |s.calls| && b < |s.calls|
    requires s.calls[a].state.Returned? && s.calls[a].returned < s.calls[b].invoked
    ensures var ks := s.accepted;
            && a in ks
            && (forall i, j :: 0 <= i < |ks| && 0 <= j < |ks| && ks[i] == a && ks[j] == b ==> i < j)
            && (forall i, j :: 0 <= i < j < |ks| ==> ks[i] != ks[j])
  {
  }

  /** Replies are given once: a returned call keeps its answer, and the loop never
      serves it again. */
  lemma ReplyIsFinal(c: Config, start: int, es: seq<Action>, e: Action, k: nat)
    requires Valid(c, start, es) && Enabled(Run(c, start, es), e)
    requires k < |Run(c, start, es).calls| && Run(c, start, es).calls[k].state.Returned?
    ensures Apply(c, Run(c, start, es), e).calls[k] == Run(c, start, es).calls[k]
  {
    RunKeepsInv(c, start, es);
  }

  // ---- Stop ----

  function Ends(es: seq<Action>): nat {
    if es == [] then 0 else Ends(es[..|es| - 1]) + if es[|es| - 1].ObserveStop? then 1 else 0
  }

  /** Ending is terminal: the loop notifies its awaiter (line 87) once if it has
      ended, and not at all before. */
  lemma {:induction false} EndsOnce(c: Config, start: int, es: seq<Action>)
    requires Valid(c, start, es)
    ensures Ends(es) == if Run(c, start, es).pc.Ended? then 1 else 0
  {
    if es != [] {
      EndsOnce(c, start, es[..|es| - 1]);
    }
  }

  /** The loop is stopped exactly when Stop was called, and it ends only then. */
  lemma {:induction false} StopIsTold(c: Config, start: int, es: seq<Action>)
    requires Valid(c, start, es)
    ensures Run(c, start, es).stopped == (Stop in es)
    ensures Run(c, start, es).pc.Ended? ==> Stop in es
  {
    if es != [] {
      StopIsTold(c, start, es[..|es| - 1]);
    }
  }

  /** The select of line 75: a tick can be taken at any time, also after Stop, any
      caller that is sending can be accepted until then, and the close is seen
      only after it. */
  lemma SelectIsFree(c: Config, start: int, es: seq<Action>)
    requires Valid(c, start, es) && Run(c, start, es).pc.Idle? && !Run(c, start, es).crashed
    ensures var s := Run(c, start, es);
            && (forall at :: Enabled(s, TimerFires(at)))
            && (Enabled(s, ObserveStop) <==> Stop in es)
            && forall k: nat :: Enabled(s, Accept(k)) <==> k < |Invoked(es)| && k !in Accepted(es) && Stop !in es
  {
    RunKeepsInv(c, start, es);
    RecordIsTrue(c, start, es);
    StopIsTold(c, start, es);
  }

  lemma TakeAction(c: Config, start: int, es: seq<Action>, e: Action) returns (fs: seq<Action>)
    requires Valid(c, start, es) && Enabled(Run(c, start, es), e)
    ensures fs == es + [e] && Valid(c, start, fs) && Run(c, start, fs) == Apply(c, Run(c, start, es), e)
  {
    fs := es + [e];
    assert fs[..|es|] == es;
  }

  ghost predicate StillSending(s: Server, t: Server) {
    forall k :: 0 <= k < |s.calls| && s.calls[k].state.Sending? ==> k < |t.calls| && t.calls[k].state.Sending?
  }

  lemma StoppedStep(c: Config, s: Server, e: Action)
    requires Enabled(s, e) && s.stopped
    requires s.pc.Replying? ==> s.pc.call < |s.calls| && s.calls[s.pc.call].state.Waiting?
    ensures !e.Accept? && StillSending(s, Apply(c, s, e))
  {
  }

  /** After Stop no call is accepted any more: a call that was still blocked in its
      send never returns. */
  lemma {:induction false} NothingAcceptedAfterStop(c: Config, start: int, es: seq<Action>, fs: seq<Action>)
    requires Valid(c, start, es) && Stop in es && Valid(c, start, fs) && es <= fs
    ensures Accepted(fs) == Accepted(es)
    ensures StillSending(Run(c, start, es), Run(c, start, fs))
    decreases |fs|
  {
    if |fs| == |es| {
      assert fs == es;
    } else {
      var prev := fs[..|fs| - 1];
      NothingAcceptedAfterStop(c, start, es, prev);
      assert Stop in prev;
      StopIsTold(c, start, prev);
      RunKeepsInv(c, start, prev);
      var s := Run(c, start, prev);
      if s.pc.Replying? {
        RepliesToWaiting(c, start, s);
      }
      StoppedStep(c, s, fs[|fs| - 1]);
    }
  }

  /** `fs` continues `es` by what the loop does on its own, and it has ended. */
  ghost predicate EndsBy(c: Config, start: int, es: seq<Action>, fs: seq<Action>) {
    && es <= fs && Valid(c, start, fs) && Run(c, start, fs).pc.Ended?
    && forall p :: |es| <= p < |fs| ==> fs[p].FinishHook? || fs[p].Reply? || fs[p].ObserveStop?
  }

  /** Nothing is being committed or answered. */
  lemma IdleLoopCanEnd(c: Config, start: int, es: seq<Action>) returns (fs: seq<Action>)
    requires Valid(c, start, es) && Run(c, start, es).stopped && !Run(c, start, es).crashed
    requires !Run(c, start, es).pc.Hooking? && !Run(c, start, es).pc.Replying?
    ensures EndsBy(c, start, es, fs) && Run(c, start, fs).marked == Run(c, start, es).marked
  {
    fs := es;
    if Run(c, start, es).pc.Idle? {
      fs := TakeAction(c, start, es, ObserveStop);
    }
  }

  lemma AnsweringLoopCanEnd(c: Config, start: int, es: seq<Action>) returns (fs: seq<Action>)
    requires Valid(c, start, es) && Run(c, start, es).stopped && !Run(c, start, es).crashed
    requires !Run(c, start, es).pc.Hooking?
    ensures EndsBy(c, start, es, fs) && Run(c, start, fs).marked == Run(c, start, es).marked
  {
    fs := es;
    if Run(c, start, es).pc.Replying? {
      RunKeepsInv(c, start, es);
      RepliesToWaiting(c, start, Run(c, start, es));
      fs := TakeAction(c, start, es, Reply);
    }
    fs := IdleLoopCanEnd(c, start, fs);
  }

  /** After Stop the loop can end: only the hook in progress and one reply are in
      the way, and nothing is committed then but what that hook permits. So what
      is pending at Stop is not flushed. */
  lemma StoppedLoopCanEnd(c: Config, start: int, es: seq<Action>) returns (fs: seq<Action>)
    requires Valid(c, start, es) && Run(c, start, es).stopped && !Run(c, start, es).crashed
    ensures EndsBy(c, start, es, fs)
    ensures !Run(c, start, es).pc.Hooking? ==> Run(c, start, fs).marked == Run(c, start, es).marked
  {
    fs := es;
    if Run(c, start, es).pc.Hooking? {
      fs := TakeAction(c, start, es, FinishHook(Nil, 0));
    }
    fs := AnsweringLoopCanEnd(c, start, fs);
  }

  predicate NoneSending(calls: seq<Call>) {
    forall k :: 0 <= k < |calls| ==> !calls[k].state.Sending?
  }

  /** `fs` continues the run `es` without any new call of Commit. */
  predicate NoNewCalls(es: seq<Action>, fs: seq<Action>) {
    es <= fs && forall i :: |es| <= i < |fs| ==> !fs[i].Invoke?
  }

  lemma {:induction false} QuietAfterStop(c: Config, start: int, es: seq<Action>, fs: seq<Action>)
    requires Valid(c, start, es) && Run(c, start, es).stopped && !Run(c, start, es).crashed
    requires NoneSending(Run(c, start, es).calls) && Valid(c, start, fs) && NoNewCalls(es, fs)
    ensures var s := Run(c, start, fs); s.stopped && !s.crashed && NoneSending(s.calls)
    decreases |fs|
  {
    if |fs| == |es| {
      assert fs == es;
    } else {
      QuietAfterStop(c, start, es, fs[..|fs| - 1]);
    }
  }

  /** As long as no new call is made, stopping is safe exactly when no call of
      Commit is blocked in its send: then no continuation without a new call can
      panic, and otherwise the very next step can. */
  lemma StopWithoutNewCalls(c: Config, start: int, es: seq<Action>)
    requires Valid(c, start, es) && Run(c, start, es).stopped && !Run(c, start, es).crashed
    ensures NoneSending(Run(c, start, es).calls)
            <==> forall fs :: Valid(c, start, fs) && NoNewCalls(es, fs) ==> !Run(c, start, fs).crashed
  {
    var s := Run(c, start, es);
    if NoneSending(s.calls) {
      forall fs | Valid(c, start, fs) && NoNewCalls(es, fs) ensures !Run(c, start, fs).crashed {
        QuietAfterStop(c, start, es, fs);
      }
    } else {
      var k :| 0 <= k < |s.calls| && s.calls[k].state.Sending?;
      var fs := es + [SendOnClosed(k)];
      assert fs[..|fs| - 1] == es;
      assert Valid(c, start, fs) && NoNewCalls(es, fs) && Run(c, start, fs).crashed;
    }
  }
}
