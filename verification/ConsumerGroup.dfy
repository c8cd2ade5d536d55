/** The methods behind the steps of Sessions: Setup, ConsumeClaim and Cleanup of
    kafka/sarama_consumer_group_handler.go, and Binder.Start of kafka/binder.go,
    each proved to be a run of the step relation whatever the other goroutines do
    at the points where it can block or be preempted. */
module ConsumerGroup {
  import opened Types
  import opened Sessions
  import opened Awaiters

  /** One session as the broker runs it: what Setup is told and what Consume returns. */
  datatype Script = Script(claims: seq<int>, batchSize: int, result: Error)

  /** One topic: no partition is claimed twice. */
  predicate Distinct(claims: seq<int>) {
    forall i, j :: 0 <= i < j < |claims| ==> claims[i] != claims[j]
  }

  predicate OfLoop(e: PartitionEvent) {
    e.StartConsuming? || e.TakeMessage? || e.ClaimCloses? || e.SeeRunnerDone? || e.Send? || e.CloseAfterLoop?
  }

  /** Steps of the handler manager, the pump, the runner and the committer. */
  predicate OfBackground(e: PartitionEvent) {
    !OfLoop(e) && !e.CleanStep?
  }

  /** Steps that other goroutines can take beside the receive loop of partition
      `mine`, or beside Setup, Cleanup and the binder: every other receive loop,
      every goroutine in the background, and the two contexts. */
  predicate OfOthers(mine: Option<int>, ev: Event) {
    || ev.Cancel? || ev.CancelSession?
    || (ev.On? && (OfBackground(ev.e) || (OfLoop(ev.e) && mine != Some(ev.p))))
  }

  /** What only Setup and Cleanup change. */
  predicate SameClean(x: Partition, y: Partition) {
    x.clean == y.clean && x.buffered == y.buffered && x.committerStops == y.committerStops
  }

  /** What only Setup, Cleanup and the receive loop change. */
  predicate SameLoop(x: Partition, y: Partition) {
    && SameClean(x, y) && x.loop == y.loop && x.started == y.started && x.closes == y.closes
    && x.taken == y.taken && x.sent == y.sent
  }

  /** The binder is where it was. */
  predicate SameBinder(s: State, t: State) {
    && s.binder == t.binder && s.past == t.past && s.notified == t.notified && s.done == t.done
    && (s.cancelled ==> t.cancelled)
  }

  /** The session and the binder are where they were. */
  predicate SameSession(s: State, t: State) {
    s.parts.Keys == t.parts.Keys && s.handler == t.handler && SameBinder(s, t)
  }

  /** How other goroutines can have changed a partition. */
  predicate Moved(mine: bool, ready: bool, x: Partition, y: Partition) {
    && SameClean(x, y)
    && (mine || x.loop.Returned? || (!ready && LoopIdle(x)) ==> SameLoop(x, y))
  }

  /** What other goroutines cannot change. */
  ghost predicate Undisturbed(mine: Option<int>, s: State, t: State) {
    SameSession(s, t) && forall p :: p in s.parts ==> Moved(mine == Some(p), s.handler.Ready?, s.parts[p], t.parts[p])
  }

  lemma UndisturbedTransitive(mine: Option<int>, s: State, t: State, u: State)
    requires Undisturbed(mine, s, t) && Undisturbed(mine, t, u)
    ensures Undisturbed(mine, s, u)
  {
  }

  lemma OtherStepMoves(mine: bool, ready: bool, x: Partition, e: PartitionEvent, cancelled: bool)
    requires CanStep(x, e, cancelled) && (e.StartConsuming? ==> ready)
    requires OfBackground(e) || (OfLoop(e) && !mine)
    ensures Moved(mine, ready, x, Step(x, e))
  {
  }

  lemma OthersLeaveUndisturbed(mine: Option<int>, s: State, ev: Event)
    requires OfOthers(mine, ev) && Enabled(s, ev)
    ensures Undisturbed(mine, s, Apply(s, ev))
  {
    if ev.On? {
      OtherStepMoves(mine == Some(ev.p), s.handler.Ready?, s.parts[ev.p], ev.e, s.sessionCancelled);
    }
  }

  /** Only partition p moves, and other goroutines. */
  ghost predicate OthersMoved(p: int, s: State, t: State) {
    && SameSession(s, t) && p in t.parts && SameClean(s.parts[p], t.parts[p])
    && forall q :: q in s.parts && q != p ==> Moved(false, s.handler.Ready?, s.parts[q], t.parts[q])
  }

  lemma OthersMovedTransitive(p: int, s: State, t: State, u: State)
    requires OthersMoved(p, s, t) && OthersMoved(p, t, u)
    ensures OthersMoved(p, s, u)
  {
  }

  /** What brings a partition whose pump cannot receive closer to its runner's end. */
  function SelectMove(x: Partition): PartitionEvent {
    if !x.runner.LaunchingHandler? && x.handlerNotified == 0 then HandlerExits else RunnerStep
  }

  lemma SelectMovePossible(x: Partition, cancelled: bool)
    requires PartitionOk(x) && x.loop.Holding? && !x.pump.Running? && x.runnerNotified == 0
    ensures CanStep(x, SelectMove(x), cancelled) && PartitionOk(Step(x, SelectMove(x)))
    ensures 0 <= Sessions.StepsLeft(Step(x, SelectMove(x))) < Sessions.StepsLeft(x)
  {
  }

  lemma RunnerMovePossible(x: Partition, cancelled: bool)
    requires PartitionOk(x) && x.clean.AwaitingRunner? && x.runnerNotified == 0
    ensures CanStep(x, CleanupMove(x), cancelled) && PartitionOk(Step(x, CleanupMove(x)))
    ensures OfBackground(CleanupMove(x))
    ensures 0 <= Sessions.StepsLeft(Step(x, CleanupMove(x))) < Sessions.StepsLeft(x)
  {
  }

  lemma TakenBetween<T>(taken: seq<T>, rest: seq<T>, before: seq<T>, feed: seq<T>)
    requires taken + rest == before + feed && |rest| <= |feed|
    ensures before <= taken <= before + feed
  {
    assert taken == (before + feed)[..|taken|];
    assert before == (before + feed)[..|before|];
  }

  /** Any next key, as Go's iteration over a map. */
  method Pick<T>(keys: set<T>) returns (p: T)
    requires keys != {}
    ensures p in keys
  {
    p :| p in keys;
  }

  /** Partitions whose claim is not consumed, or still being consumed. */
  function Unreturned(parts: map<int, Partition>): set<int> {
    set p | p in parts && !parts[p].loop.Returned?
  }

  predicate AllIdle(parts: map<int, Partition>) {
    forall p :: p in parts ==> LoopIdle(parts[p])
  }

  /** Nothing has been consumed or cleaned yet, but goroutines in the background
      may have moved. */
  predicate Unconsumed(x: Partition, buffered: bool) {
    && x.buffered == buffered && !x.started && x.loop.NotStarted? && x.closes == 0 && x.taken == x.sent == []
    && x.clean.Untouched? && x.committerStops == 0
  }

  /** Exactly the claims have a handler. */
  ghost predicate Installed(claims: seq<int>, buffered: bool, parts: map<int, Partition>) {
    && parts.Keys == (set p | p in claims)
    && forall p :: p in parts ==> Unconsumed(parts[p], buffered)
  }

  lemma InstalledNext(claims: seq<int>, i: nat, buffered: bool, parts: map<int, Partition>, s: State, t: State)
    requires i < |claims| && Installed(claims[..i], buffered, parts)
    requires s.parts == parts[claims[i] := NewPartition(buffered)] && !s.handler.Ready?
    requires Undisturbed(None, s, t)
    ensures Installed(claims[..i + 1], buffered, t.parts)
  {
  }

  /** Cleanup has moved partition p only. */
  ghost predicate CleanFrame(p: int, s: State, t: State) {
    && s.parts.Keys == t.parts.Keys && p in t.parts && SameBinder(s, t)
    && forall q :: q in s.parts && q != p ==> SameClean(s.parts[q], t.parts[q])
  }

  /** The binder and the handler of its current session. */
  class Binder {
    /** The handler: where it is in its life, PartionHandlers, how often its done
        channel was closed, and whether the session's context is done. */
    var handler: Handler
    var partionHandlers: map<int, Partition>
    var done: nat
    var sessionCancelled: bool
    /** The binder's loop, its context, how often it notified, and the partitions
        of ended sessions, which are history only. */
    var control: Sessions.Binder
    var cancelled: bool
    var notified: nat
    var past: seq<map<int, Partition>>
    /** Every event so far, of all goroutines. */
    ghost var events: seq<Event>
    const awaitNotifier: AwaitNotifier

    function St(): State
      reads this
    {
      State(control, notified, cancelled, handler, sessionCancelled, done, partionHandlers, past)
    }

    ghost predicate Mirrors()
      reads this, awaitNotifier
    {
      Valid(events) && Run(events) == St() && awaitNotifier.done == control.Exited?
    }

    constructor ()
      ensures Mirrors() && St() == Init && fresh(awaitNotifier)
    {
      handler, partionHandlers, done, sessionCancelled := SettingUp, map[], 0, false;
      control, cancelled, notified, past, events := Consuming, false, 0, [], [];
      awaitNotifier := new AwaitNotifier();
    }

    method Do(ev: Event)
      requires Mirrors() && Enabled(St(), ev) && Apply(St(), ev).binder.Exited? == control.Exited?
      modifies this
      ensures Mirrors() && St() == Apply(old(St()), ev) && events == old(events) + [ev]
    {
      Extend(events, ev);
      var t := Apply(St(), ev);
      handler, partionHandlers, done, sessionCancelled := t.handler, t.parts, t.done, t.sessionCancelled;
      control, cancelled, notified, past := t.binder, t.cancelled, t.notified, t.past;
      events := events + [ev];
    }

    /** Whoever made the binder's context cancels it. */
    method CancelContext()
      requires Mirrors()
      modifies this`cancelled, this`events
      ensures Mirrors() && cancelled && events == old(events) + [Cancel]
    {
      Extend(events, Cancel);
      cancelled, events := true, events + [Cancel];
    }

    /** Any number of steps of other goroutines. */
    method Interfere(mine: Option<int>)
      requires Mirrors()
      modifies this
      ensures Mirrors() && old(events) <= events && Undisturbed(mine, old(St()), St())
    {
      var n: nat :| 0 <= n;
      for i := 0 to n
        invariant Mirrors() && old(events) <= events && Undisturbed(mine, old(St()), St())
      {
        var ev: Event := *;
        if OfOthers(mine, ev) && Enabled(St(), ev) {
          ghost var before := St();
          OthersLeaveUndisturbed(mine, St(), ev);
          Do(ev);
          UndisturbedTransitive(mine, old(St()), before, St());
        }
      }
    }

    /** Lines 64-76 for one claim: its handler is put in the map, with its runner
        and, with a batch size, its committer's event loop started. */
    method InstallHandler(p: int, batchSize: int)
      requires Mirrors() && control.Consuming? && handler.SettingUp? && p !in partionHandlers
      modifies this`partionHandlers, this`events
      ensures Mirrors() && old(events) <= events
      ensures partionHandlers == old(partionHandlers)[p := NewPartition(batchSize > 0)]
    {
      Extend(events, Install(p, batchSize > 0));
      partionHandlers := partionHandlers[p := NewPartition(batchSize > 0)];
      events := events + [Install(p, batchSize > 0)];
    }

    /** Setup: the loop over the claims installs a handler for each, while the
        goroutines of those installed before already run. */
    method Setup(claims: seq<int>, batchSize: int)
      requires Mirrors() && control.Consuming? && handler.SettingUp? && partionHandlers == map[] && Distinct(claims)
      modifies this
      ensures Mirrors() && old(events) <= events && handler.Ready? && SameBinder(old(St()), St())
      ensures Installed(claims, batchSize > 0, partionHandlers)
    {
      for i := 0 to |claims|
        invariant Mirrors() && old(events) <= events && handler.SettingUp? && SameBinder(old(St()), St())
        invariant Installed(claims[..i], batchSize > 0, partionHandlers)
      {
        ghost var before := partionHandlers;
        InstallHandler(claims[i], batchSize);
        ghost var installed := St();
        Interfere(None);
        InstalledNext(claims, i, batchSize > 0, before, installed, St());
      }
      assert claims[..|claims|] == claims;
      Do(SetupReturns);
    }

    /** One step of the receive loop of partition p. */
    method DoLoop(p: int, e: PartitionEvent)
      requires Mirrors() && Enabled(St(), On(p, e)) && OfLoop(e)
      modifies this
      ensures Mirrors() && events == old(events) + [On(p, e)] && OthersMoved(p, old(St()), St())
      ensures partionHandlers[p] == Step(old(partionHandlers)[p], e)
    {
      Do(On(p, e));
    }

    /** One step of a goroutine in the background of partition p. */
    method DoBackground(p: int, e: PartitionEvent)
      requires Mirrors() && Enabled(St(), On(p, e)) && OfBackground(e)
      modifies this
      ensures Mirrors() && events == old(events) + [On(p, e)] && Undisturbed(Some(p), old(St()), St())
      ensures partionHandlers[p] == Step(old(partionHandlers)[p], e)
    {
      Do(On(p, e));
    }

    /** Line 138: until the pump can receive or the runner has been notified. */
    method AwaitSelect(p: int)
      requires Mirrors() && p in partionHandlers && partionHandlers[p].loop.Holding?
      modifies this
      ensures Mirrors() && old(events) <= events && Undisturbed(Some(p), old(St()), St())
      ensures partionHandlers[p].pump.Running? <==> partionHandlers[p].runnerNotified == 0
    {
      Interfere(Some(p));
      assert PartitionOk(partionHandlers[p]) by {
        RunKeepsInv(events);
      }
      while !partionHandlers[p].pump.Running? && partionHandlers[p].runnerNotified == 0
        invariant Mirrors() && old(events) <= events && Undisturbed(Some(p), old(St()), St())
        invariant PartitionOk(partionHandlers[p])
        decreases Sessions.StepsLeft(partionHandlers[p])
      {
        ghost var before := St();
        SelectMovePossible(partionHandlers[p], sessionCancelled);
        DoBackground(p, SelectMove(partionHandlers[p]));
        UndisturbedTransitive(Some(p), old(St()), before, St());
      }
    }

    /** Lines 137-141: the message in hand is sent, unless the runner is done. */
    method SendOrLeave(p: int) returns (sent: bool)
      requires Mirrors() && p in partionHandlers && partionHandlers[p].loop.Holding?
      modifies this
      ensures Mirrors() && old(events) <= events && OthersMoved(p, old(St()), St())
      ensures partionHandlers[p].taken == old(partionHandlers)[p].taken
      ensures partionHandlers[p].loop == if sent then Receiving else Leaving
      ensures !sent ==> partionHandlers[p].runnerNotified > 0
    {
      AwaitSelect(p);
      ghost var waited := St();
      sent := partionHandlers[p].pump.Running?;
      DoLoop(p, if sent then Send else SeeRunnerDone);
      OthersMovedTransitive(p, old(St()), waited, St());
    }

    /** The loop is left because the runner is done, or because the claim is closed
        and all that it delivered was sent. */
    static predicate LeftForAReason(x: Partition, rest: seq<Message>) {
      x.runnerNotified > 0 || (rest == [] && x.sent == x.taken)
    }

    /** Line 118: until a case of the select is taken. */
    method AwaitClaim(p: int)
      requires Mirrors() && p in partionHandlers && partionHandlers[p].loop.Receiving?
      modifies this
      ensures Mirrors() && old(events) <= events && Undisturbed(Some(p), old(St()), St())
      ensures partionHandlers[p].sent == partionHandlers[p].taken
    {
      Interfere(Some(p));
      RunKeepsInv(events);
      assert PartitionOk(partionHandlers[p]);
    }

    /** Lines 118-135, when `feed` is what the claim still delivers before it closes:
        a message is taken, or the loop is left. */
    method ReceiveOrLeave(p: int, feed: seq<Message>) returns (rest: seq<Message>)
      requires Mirrors() && p in partionHandlers && partionHandlers[p].loop.Receiving?
      modifies this
      ensures Mirrors() && old(events) <= events && OthersMoved(p, old(St()), St())
      ensures partionHandlers[p].taken + rest == old(partionHandlers)[p].taken + feed
      ensures if partionHandlers[p].loop.Leaving? then rest == feed && LeftForAReason(partionHandlers[p], rest)
              else partionHandlers[p].loop.Holding? && |rest| < |feed|
    {
      AwaitClaim(p);
      ghost var waited := St();
      var seeDone: bool := *;
      var e := if seeDone && partionHandlers[p].runnerNotified > 0 then SeeRunnerDone
               else if feed == [] then ClaimCloses
               else TakeMessage(feed[0]);
      rest := if e.TakeMessage? then feed[1..] else feed;
      DoLoop(p, e);
      OthersMovedTransitive(p, old(St()), waited, St());
    }

    /** One wait of the receive loop, at line 118 or at line 138. */
    method LoopRound(p: int, feed: seq<Message>) returns (rest: seq<Message>)
      requires Mirrors() && p in partionHandlers && !LoopIdle(partionHandlers[p])
      requires !partionHandlers[p].loop.Leaving?
      modifies this
      ensures Mirrors() && old(events) <= events && OthersMoved(p, old(St()), St())
      ensures !LoopIdle(partionHandlers[p]) && 0 <= LoopRank(partionHandlers[p], rest)
      ensures LoopRank(partionHandlers[p], rest) < LoopRank(old(partionHandlers)[p], feed)
      ensures partionHandlers[p].taken + rest == old(partionHandlers)[p].taken + feed && |rest| <= |feed|
      ensures partionHandlers[p].loop.Leaving? ==> LeftForAReason(partionHandlers[p], rest)
    {
      rest := feed;
      if partionHandlers[p].loop.Holding? {
        var sent := SendOrLeave(p);
      } else {
        rest := ReceiveOrLeave(p, feed);
      }
    }

    static function LoopRank(x: Partition, feed: seq<Message>): int {
      2 * |feed| + match x.loop
                   case Holding(_) => 2
                   case Receiving => 1
                   case _ => 0
    }

    /** Lines 116-144, from wherever the loop is. However it ends, the partition's
        channel has been closed once, and the pump was sent what the loop took
        from the claim, in order, without at most the last message. */
    method ReceiveLoop(p: int, feed: seq<Message>)
      requires Mirrors() && p in partionHandlers && !LoopIdle(partionHandlers[p])
      modifies this
      ensures Mirrors() && old(events) <= events && OthersMoved(p, old(St()), St())
      ensures ClaimConsumed(partionHandlers[p], old(partionHandlers)[p].taken, feed)
      ensures old(partionHandlers)[p].loop.Leaving? || partionHandlers[p].runnerNotified > 0
              || partionHandlers[p].sent == old(partionHandlers)[p].taken + feed
    {
      var rest := feed;
      while !partionHandlers[p].loop.Leaving?
        invariant Mirrors() && old(events) <= events && OthersMoved(p, old(St()), St())
        invariant !LoopIdle(partionHandlers[p]) && 0 <= LoopRank(partionHandlers[p], rest)
        invariant partionHandlers[p].taken + rest == old(partionHandlers)[p].taken + feed && |rest| <= |feed|
        invariant partionHandlers[p].loop.Leaving? ==>
                    old(partionHandlers)[p].loop.Leaving? || LeftForAReason(partionHandlers[p], rest)
        decreases LoopRank(partionHandlers[p], rest)
      {
        ghost var round := St();
        rest := LoopRound(p, rest);
        OthersMovedTransitive(p, old(St()), round, St());
      }
      ghost var left := St();
      CloseChannel(p, old(partionHandlers)[p].taken, rest, feed);
      OthersMovedTransitive(p, old(St()), left, St());
    }

    /** Line 144. */
    method CloseChannel(p: int, ghost before: seq<Message>, ghost rest: seq<Message>, ghost feed: seq<Message>)
      requires Mirrors() && p in partionHandlers && partionHandlers[p].loop.Leaving?
      requires partionHandlers[p].taken + rest == before + feed && |rest| <= |feed|
      modifies this
      ensures Mirrors() && old(events) <= events && OthersMoved(p, old(St()), St())
      ensures ClaimConsumed(partionHandlers[p], before, feed)
      ensures LeftForAReason(old(partionHandlers)[p], rest) ==>
                partionHandlers[p].runnerNotified > 0 || partionHandlers[p].sent == before + feed
    {
      TakenBetween(partionHandlers[p].taken, rest, before, feed);
      DoLoop(p, CloseAfterLoop);
      RunKeepsInv(events);
      assert PartitionOk(partionHandlers[p]);
    }

    static ghost predicate ClaimConsumed(x: Partition, before: seq<Message>, feed: seq<Message>) {
      && x.started && x.loop.Returned? && x.closes == 1
      && before <= x.taken <= before + feed
      && x.sent <= x.taken && |x.taken| <= |x.sent| + 1
    }

    /** ConsumeClaim of a claimed partition, whose claim delivers `feed` and then
        closes, while the loops of other partitions and all other goroutines of
        the session run on. */
    method ConsumeClaim(p: int, feed: seq<Message>)
      requires Mirrors() && handler.Ready? && p in partionHandlers && partionHandlers[p].loop.NotStarted?
      modifies this
      ensures Mirrors() && old(events) <= events && OthersMoved(p, old(St()), St())
      ensures ClaimConsumed(partionHandlers[p], [], feed)
      ensures partionHandlers[p].runnerNotified > 0 || partionHandlers[p].sent == feed
    {
      RunKeepsInv(events);
      assert PartitionOk(partionHandlers[p]);
      DoLoop(p, StartConsuming);
      ghost var started := St();
      ReceiveLoop(p, feed);
      OthersMovedTransitive(p, old(St()), started, St());
    }

    /** Line 90: until the partition's runner has been notified. */
    method AwaitRunner(p: int)
      requires Mirrors() && p in partionHandlers && partionHandlers[p].clean.AwaitingRunner?
      modifies this
      ensures Mirrors() && old(events) <= events && Undisturbed(None, old(St()), St())
      ensures partionHandlers[p].runnerNotified > 0
    {
      Interfere(None);
      assert PartitionOk(partionHandlers[p]) by {
        RunKeepsInv(events);
      }
      while partionHandlers[p].runnerNotified == 0
        invariant Mirrors() && old(events) <= events && Undisturbed(None, old(St()), St())
        invariant PartitionOk(partionHandlers[p])
        decreases Sessions.StepsLeft(partionHandlers[p])
      {
        ghost var before := St();
        RunnerMovePossible(partionHandlers[p], sessionCancelled);
        DoBackground(p, CleanupMove(partionHandlers[p]));
        UndisturbedTransitive(None, old(St()), before, St());
      }
    }

    /** Line 93: until the partition's committer has ended. */
    method AwaitCommitter(p: int)
      requires Mirrors() && p in partionHandlers && partionHandlers[p].clean.AwaitingCommitter?
      modifies this
      ensures Mirrors() && old(events) <= events && Undisturbed(None, old(St()), St())
      ensures partionHandlers[p].committerNotified > 0
    {
      Interfere(None);
      assert PartitionOk(partionHandlers[p]) by {
        RunKeepsInv(events);
      }
      if partionHandlers[p].committerNotified == 0 {
        ghost var before := St();
        DoBackground(p, CommitterEnds);
        UndisturbedTransitive(None, old(St()), before, St());
      }
    }

    /** One step of Cleanup in partition p. */
    method DoClean(p: int)
      requires Mirrors() && Enabled(St(), On(p, CleanStep))
      modifies this
      ensures Mirrors() && old(events) <= events && CleanFrame(p, old(St()), St())
      ensures partionHandlers[p] == CleanNext(old(partionHandlers)[p])
      ensures handler == Cleaning(if partionHandlers[p].clean.Cleaned? then None else Some(p))
    {
      Do(On(p, CleanStep));
    }

    /** Lines 87-90 for partition p. */
    method CloseAndAwaitRunner(p: int)
      requires Mirrors() && handler == Cleaning(None) && p in partionHandlers && partionHandlers[p].clean.Untouched?
      modifies this
      ensures Mirrors() && old(events) <= events && handler == Cleaning(Some(p)) && CleanFrame(p, old(St()), St())
      ensures partionHandlers[p].clean.AwaitingRunner? && partionHandlers[p].runnerNotified > 0
    {
      DoClean(p);
      DoClean(p);
      AwaitRunner(p);
    }

    /** Lines 87-93 for partition p. */
    method CleanPartition(p: int)
      requires Mirrors() && handler == Cleaning(None) && p in partionHandlers && partionHandlers[p].clean.Untouched?
      modifies this
      ensures Mirrors() && old(events) <= events && handler == Cleaning(None) && CleanFrame(p, old(St()), St())
      ensures partionHandlers[p].clean.Cleaned?
    {
      CloseAndAwaitRunner(p);
      DoClean(p);
      DoClean(p);
      AwaitCommitter(p);
      DoClean(p);
    }

    /** Cleanup: goes through the partitions in any order, closes the channels of
        those never started, and waits for every runner and every committer. */
    method Cleanup()
      requires Mirrors() && handler.Ready? && AllIdle(partionHandlers)
      modifies this
      ensures Mirrors() && old(events) <= events && handler.Done? && done == 1
      ensures partionHandlers.Keys == old(partionHandlers).Keys && control == old(control) && past == old(past)
      ensures old(cancelled) ==> cancelled
      ensures forall p :: p in partionHandlers ==> TornDown(partionHandlers[p])
    {
      RunKeepsInv(events);
      Do(BeginCleanup);
      var todo := partionHandlers.Keys;
      while todo != {}
        invariant Mirrors() && old(events) <= events && handler == Cleaning(None) && todo <= partionHandlers.Keys
        invariant partionHandlers.Keys == old(partionHandlers).Keys && control == old(control) && past == old(past)
        invariant old(cancelled) ==> cancelled
        invariant forall p :: p in partionHandlers ==>
                    partionHandlers[p].clean == if p in todo then Untouched else Cleaned
        decreases todo
      {
        var p := Pick(todo);
        CleanPartition(p);
        todo := todo - {p};
      }
      Do(EndCleanup);
      RunKeepsInv(events);
      DoneIsTornDown(St());
    }

    /** The session between Setup and Cleanup: the receive loops of any of the
        claims run concurrently, until all that were started have returned. */
    method ConsumeClaims()
      requires Mirrors() && handler.Ready?
      modifies this
      ensures Mirrors() && old(events) <= events && SameSession(old(St()), St()) && AllIdle(partionHandlers)
    {
      Interfere(None);
      while true
        invariant Mirrors() && old(events) <= events && SameSession(old(St()), St())
        decreases Unreturned(partionHandlers)
      {
        var ends: bool := *;
        if Unreturned(partionHandlers) == {} || (ends && AllIdle(partionHandlers)) {
          assert forall p :: p in partionHandlers ==> p in Unreturned(partionHandlers) || LoopIdle(partionHandlers[p]);
          return;
        }
        var p := Pick(Unreturned(partionHandlers));
        var feed: seq<Message> := *;
        ghost var before := St();
        if partionHandlers[p].loop.NotStarted? {
          ConsumeClaim(p, feed);
        } else {
          ReceiveLoop(p, feed);
        }
        FewerUnreturned(p, before, St());
      }
    }

    static lemma FewerUnreturned(p: int, s: State, t: State)
      requires OthersMoved(p, s, t) && p in Unreturned(s.parts) && t.parts[p].loop.Returned?
      ensures Unreturned(t.parts) < Unreturned(s.parts)
    {
      forall q | q in Unreturned(t.parts) ensures q in Unreturned(s.parts) {
        assert q != p ==> Moved(false, s.handler.Ready?, s.parts[q], t.parts[q]);
      }
    }

    /** The broker's part of Consume: sets the session up, has any of the claims
        consumed, and cleans up. */
    method RunSession(script: Script)
      requires Mirrors() && control.Consuming? && handler.SettingUp? && partionHandlers == map[]
      requires Distinct(script.claims)
      modifies this
      ensures Mirrors() && old(events) <= events && handler.Done? && done == 1
      ensures control.Consuming? && past == old(past) && (old(cancelled) ==> cancelled)
      ensures partionHandlers.Keys == set p | p in script.claims
      ensures forall p :: p in partionHandlers ==> TornDown(partionHandlers[p])
    {
      Setup(script.claims, script.batchSize);
      ConsumeClaims();
      Cleanup();
    }

    /** Lines 57-58 and 70-71: the binder's goroutine ends. */
    method Exit(ev: Event, err: Error)
      requires Mirrors() && !control.Exited? && Enabled(St(), ev)
      requires Apply(St(), ev) == St().(binder := Exited, notified := notified + 1)
      modifies this`control, this`notified, this`events, awaitNotifier
      ensures Mirrors() && control.Exited? && events == old(events) + [ev]
      ensures awaitNotifier.done && awaitNotifier.err == err
    {
      Extend(events, ev);
      control, notified, events := Exited, notified + 1, events + [ev];
      awaitNotifier.Notify(err);
    }

    /** Lines 56-73, when Consume has returned `err`: true if the loop goes on. */
    method AfterConsume(err: Error) returns (proceed: bool)
      requires Mirrors() && control.Consuming? && handler.Done? && done == 1
      modifies this, awaitNotifier
      ensures Mirrors() && old(events) <= events && proceed == !awaitNotifier.done && (old(cancelled) ==> cancelled)
      ensures proceed == (err.Nil? && !cancelled)
      ensures if proceed then
                && control.Consuming? && handler.SettingUp? && partionHandlers == map[] && !sessionCancelled
                && |past| == |old(past)| + 1 && past[..|old(past)|] == old(past)
                && past[|old(past)|].Keys == old(partionHandlers).Keys
              else past == old(past) && awaitNotifier.err == err
    {
      if !err.Nil? {
        Exit(ConsumeReturns(err), err);
        return false;
      }
      Do(ConsumeReturns(err));
      Do(HandlerDone);
      Interfere(None);
      if cancelled {
        Exit(CheckContext, Nil);
        return false;
      }
      Do(CheckContext);
      return true;
    }

    /** Binder.Start over the given sessions: each one is torn down before the
        next begins, and the binder stops, notifying once, at the first error of
        Consume (with that error) or when it finds its context done (with none),
        for which the context must have been done; if it is done from the start,
        that is after the first session. */
    method Start(scripts: seq<Script>) returns (sessions: nat)
      requires Mirrors() && St() == Init.(cancelled := cancelled)
      requires forall k :: 0 <= k < |scripts| ==> Distinct(scripts[k].claims)
      modifies this, awaitNotifier
      ensures Mirrors() && |past| <= sessions <= |scripts|
      ensures forall i, p :: 0 <= i < |past| && p in past[i] ==> TornDown(past[i][p])
      ensures forall k :: 0 <= k < |past| ==> past[k].Keys == set p | p in scripts[k].claims
      ensures forall k :: 0 <= k < sessions - 1 ==> scripts[k].result.Nil?
      ensures if awaitNotifier.done then |past| == sessions - 1 && awaitNotifier.err == scripts[sessions - 1].result
              else sessions == |scripts| == |past| && forall k :: 0 <= k < |scripts| ==> scripts[k].result.Nil?
      ensures awaitNotifier.done && awaitNotifier.err.Nil? ==> cancelled
      ensures old(cancelled) && scripts != [] ==> sessions == 1 && awaitNotifier.done
    {
      sessions := 0;
      while sessions < |scripts|
        invariant Mirrors() && sessions <= |scripts| && |past| == sessions
        invariant old(cancelled) ==> cancelled && sessions == 0
        invariant control.Consuming? && handler.SettingUp? && partionHandlers == map[]
        invariant forall k :: 0 <= k < sessions ==> scripts[k].result.Nil?
        invariant forall k :: 0 <= k < |past| ==> past[k].Keys == set p | p in scripts[k].claims
      {
        RunSession(scripts[sessions]);
        sessions := sessions + 1;
        var proceed := AfterConsume(scripts[sessions - 1].result);
        if !proceed {
          break;
        }
      }
      GenerationSeparation(events);
    }
  }
}
