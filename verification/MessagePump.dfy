/** core/message_pump.go, `MessagePump.Start`: the pump's loop, proved to be a run
    of the step relation whatever the workers and the context do meanwhile. */
module MessagePumpLoop {
  import opened Awaiters
  import opened Types
  import opened Retry
  import opened Workers
  import opened Pump
  import opened PumpTheorems

  /** An iteration always finds a free handler. */
  lemma LaunchingHasRoom(c: Config, es: seq<Event>)
    requires Valid(c, es) && Run(c, es).pc.Launching? && Run(c, es).pc.k == 0
    ensures 0 <= Run(c, es).active < c.maxHandlers
  {
    RunKeepsInv(c, es);
  }

  lemma LaunchedAllAtHead(c: Config, es: seq<Event>)
    requires Valid(c, es) && WaitsForStream(Run(c, es))
    ensures Messages(Run(c, es).workers) == Flatten(Run(c, es).received)
  {
    RunKeepsInv(c, es);
  }

  class MessagePump {
    const config: Config
    var activeHandlers: int
    var buffer: seq<Message>
    var ctxDone: bool
    /** Every event so far, of the pump, its workers and its context. */
    ghost var events: seq<Event>
    const awaitNotifier: AwaitNotifier

    ghost predicate Mirrors()
      reads this
    {
      && Valid(config, events)
      && var s := Run(config, events);
         s.buffer == buffer && s.active == activeHandlers && s.cancelled == ctxDone
    }

    ghost function St(): State
      requires Mirrors()
      reads this
    {
      Run(config, events)
    }

    /** Zero MaxHandlers means 256 for each CPU. */
    constructor (maxHandlers: nat, retryCount: int, numCPU: nat)
      requires 1 <= numCPU
      ensures Mirrors() && St() == Init && !ctxDone
      ensures maxHandlers == 0 ==> config.maxHandlers == 256 * numCPU
      ensures maxHandlers != 0 ==> config.maxHandlers == maxHandlers
      ensures config.retryCount == retryCount
      ensures fresh(awaitNotifier) && !awaitNotifier.done
    {
      var handlers := maxHandlers;
      if handlers == 0 {
        handlers := numCPU * 256;
      }
      awaitNotifier := new AwaitNotifier();
      config := Config(handlers, retryCount);
      activeHandlers, buffer, ctxDone, events := 0, [], false, [];
    }

    /** What other goroutines cannot change. */
    static ghost predicate SameLoop(s: State, t: State) {
      && s.pc == t.pc && s.buffer == t.buffer && s.active == t.active && s.consumed == t.consumed
      && s.received == t.received && s.closed == t.closed && |s.workers| == |t.workers|
      && (s.cancelled ==> t.cancelled)
    }

    /** Nothing has been read from the stream, and no cancellation is undone. */
    static ghost predicate SameStream(s: State, t: State) {
      s.received == t.received && s.closed == t.closed && (s.cancelled ==> t.cancelled)
    }

    /** Whoever made the context cancels it. */
    method CancelContext()
      requires Mirrors()
      modifies this`events, this`ctxDone
      ensures Mirrors() && events == old(events) + [Cancel] && St() == old(St()).(cancelled := true)
    {
      Extend(config, events, Cancel);
      events := events + [Cancel];
      ctxDone := true;
    }

    /** Any number of worker steps, and possibly a cancellation. */
    method Interfere()
      requires Mirrors()
      modifies this`events, this`ctxDone
      ensures Mirrors() && old(events) <= events && SameLoop(old(St()), St())
      ensures old(ctxDone) ==> ctxDone
    {
      ghost var fs :| WorkersRunOn(events, fs) && Valid(config, fs);
      WorkerEventsKeepPump(config, events, fs);
      events := fs;
      var cancel: bool := *;
      if cancel {
        CancelContext();
      }
    }

    /** The environment runs on until a token is there; one always can be. */
    ghost method AwaitToken()
      requires Mirrors() && St().pc.Selecting? && activeHandlers == config.maxHandlers
      modifies this`events
      ensures Mirrors() && old(events) <= events && SameLoop(old(St()), St()) && Enabled(config, St(), Consume)
    {
      var gs := SaturatedPumpProgresses(config, events);
      var fs :| WorkersRunOn(events, fs) && Valid(config, fs) && Enabled(config, Run(config, fs), Consume);
      WorkerEventsKeepPump(config, events, fs);
      events := fs;
    }

    /** Lines 55-60: the next batch of the stream, or its close. */
    method Fill(stream: seq<seq<Message>>, next: nat) returns (ok: bool)
      requires Mirrors() && St().pc.Head? && buffer == [] && !St().closed
      requires next <= |stream| && St().received == stream[..next]
      modifies this`events, this`buffer
      ensures Mirrors() && old(events) <= events && ok == (next < |stream|)
      ensures ok ==> St().pc == Launching(Max(0, ToDispatch(config, activeHandlers, buffer)), 0)
      ensures ok ==> !St().closed && St().received == stream[..next + 1] && buffer == stream[next]
      ensures ctxDone == old(ctxDone)
      ensures !ok ==> St().pc == Exited(TransporterClosed) && St().received == stream && buffer == []
    {
      ok := next < |stream|;
      if ok {
        Extend(config, events, Receive(stream[next]));
        events := events + [Receive(stream[next])];
        buffer := stream[next];
      } else {
        Extend(config, events, Close);
        Extend(config, events + [Close], ObserveClose);
        events := events + [Close] + [ObserveClose];
      }
    }

    /** Line 54: the buffer still holds messages of an earlier batch. */
    method KeepBuffer()
      requires Mirrors() && St().pc.Head? && buffer != []
      modifies this`events
      ensures Mirrors() && old(events) <= events
      ensures St().pc == Launching(Max(0, ToDispatch(config, activeHandlers, buffer)), 0)
      ensures SameStream(old(St()), St())
    {
      Extend(config, events, Reuse);
      events := events + [Reuse];
    }

    /** Line 74: starts the goroutine of message k of the buffer. */
    method LaunchNext(n: nat, k: nat)
      requires Mirrors() && St().pc == Launching(n, k) && k < n <= |buffer|
      modifies this`events, this`ctxDone
      ensures Mirrors() && old(events) <= events
      ensures St().pc == Launching(n, k + 1) && |St().workers| == old(|St().workers|) + 1
      ensures SameStream(old(St()), St())
    {
      Extend(config, events, Launch);
      events := events + [Launch];
      Interfere();
    }

    /** Lines 77-78. */
    method FinishLaunching(n: nat)
      requires Mirrors() && St().pc == Launching(n, n) && n <= |buffer|
      modifies this`events, this`buffer, this`activeHandlers
      ensures Mirrors() && old(events) <= events && St() == Apply(config, old(St()), EndLaunch)
      ensures buffer == old(buffer)[n..] && activeHandlers == old(activeHandlers) + n
    {
      Extend(config, events, EndLaunch);
      events := events + [EndLaunch];
      buffer := buffer[n..];
      activeHandlers := activeHandlers + n;
    }

    /** Lines 66-78: launches as many messages as there are free handlers. */
    method LaunchSome()
      requires Mirrors() && St().pc == Launching(Max(0, ToDispatch(config, activeHandlers, buffer)), 0)
      requires 0 <= activeHandlers <= config.maxHandlers
      modifies this
      ensures Mirrors() && old(events) <= events && St().pc.Selecting?
      ensures SameStream(old(St()), St())
      ensures var n := ToDispatch(config, old(activeHandlers), old(buffer));
              && |St().workers| == old(|St().workers|) + n
              && activeHandlers == old(activeHandlers) + n
              && buffer == old(buffer)[n..]
    {
      var numberOfMessagesToDispatch := |buffer|;
      var numberOfAvailableHandlers := config.maxHandlers - activeHandlers;
      if numberOfMessagesToDispatch > numberOfAvailableHandlers {
        numberOfMessagesToDispatch := numberOfAvailableHandlers;
      }
      for k := 0 to numberOfMessagesToDispatch
        invariant Mirrors() && old(events) <= events
        invariant buffer == old(buffer) && activeHandlers == old(activeHandlers)
        invariant St().pc == Launching(numberOfMessagesToDispatch, k)
        invariant SameStream(old(St()), St())
        invariant |St().workers| == old(|St().workers|) + k
      {
        LaunchNext(numberOfMessagesToDispatch, k);
      }
      FinishLaunching(numberOfMessagesToDispatch);
    }

    /** Lines 85 and 96. */
    method ReturnCancelled()
      requires Mirrors() && St().pc.Selecting? && ctxDone
      modifies this`events
      ensures Mirrors() && old(events) <= events && St().pc == Exited(ContextCancelled)
      ensures SameStream(old(St()), St()) && St().consumed == old(St().consumed)
    {
      Extend(config, events, ObserveCancel);
      events := events + [ObserveCancel];
    }

    /** Lines 88-89. */
    method TakeToken()
      requires Mirrors() && St().pc.Selecting? && activeHandlers == config.maxHandlers
      modifies this`events, this`activeHandlers
      ensures Mirrors() && old(events) <= events && St().pc.Head? && SameStream(old(St()), St())
      ensures activeHandlers == old(activeHandlers) - 1 && St().consumed == old(St().consumed) + 1
    {
      AwaitToken();
      Extend(config, events, Consume);
      events := events + [Consume];
      activeHandlers := activeHandlers - 1;
    }

    /** Line 99. */
    method GoOn()
      requires Mirrors() && St().pc.Selecting? && activeHandlers != config.maxHandlers && !ctxDone
      modifies this`events
      ensures Mirrors() && old(events) <= events && St().pc.Head?
      ensures SameStream(old(St()), St()) && St().consumed == old(St().consumed)
    {
      Extend(config, events, Continue);
      events := events + [Continue];
    }

    /** Lines 80-101: true if the loop goes on. With both a token and a
        cancellation ready, either may be chosen; `preferDone` is that choice. */
    method Select(preferDone: bool) returns (proceed: bool)
      requires Mirrors() && St().pc.Selecting?
      modifies this`events, this`ctxDone, this`activeHandlers
      ensures Mirrors() && old(events) <= events && SameStream(old(St()), St())
      ensures if proceed then St().pc.Head? else St().pc == Exited(ContextCancelled) && ctxDone
      ensures proceed == !(ctxDone && (preferDone || old(activeHandlers) != config.maxHandlers))
      ensures if proceed && old(activeHandlers) == config.maxHandlers
              then activeHandlers == old(activeHandlers) - 1 && St().consumed == old(St().consumed) + 1
              else activeHandlers == old(activeHandlers) && St().consumed == old(St().consumed)
    {
      Interfere();
      if activeHandlers == config.maxHandlers {
        if ctxDone && preferDone {
          ReturnCancelled();
          return false;
        }
        TakeToken();
        return true;
      }
      if ctxDone {
        ReturnCancelled();
        return false;
      }
      GoOn();
      return true;
    }

    /** Lines 66-101: a nonempty buffer gets shorter, and a context that is done is
        obeyed if a handler stays free. */
    method LaunchAndSelect() returns (proceed: bool)
      requires Mirrors() && St().pc == Launching(Max(0, ToDispatch(config, activeHandlers, buffer)), 0)
      modifies this
      ensures Mirrors() && old(events) <= events && SameStream(old(St()), St())
      ensures if proceed then St().pc.Head? else St().pc == Exited(ContextCancelled) && ctxDone
      ensures old(buffer) != [] ==> |buffer| < |old(buffer)|
      ensures old(buffer) == [] ==> buffer == []
      ensures old(activeHandlers) + |old(buffer)| < config.maxHandlers ==> proceed == !ctxDone
      ensures old(ctxDone) ==> ctxDone
    {
      LaunchingHasRoom(config, events);
      LaunchSome();
      var preferDone: bool := *;
      proceed := Select(preferDone);
    }

    /** Lines 57, 86 and 97: the goroutine ends. */
    method Finish(exit: Exit, err: Error)
      requires Mirrors() && St().pc == Exited(exit) && !awaitNotifier.done
      modifies awaitNotifier
      ensures Mirrors() && St() == old(St())
      ensures awaitNotifier.done && awaitNotifier.err == err
      ensures Messages(St().workers) + buffer == Flatten(St().received)
      ensures buffer != [] ==> exit == ContextCancelled && activeHandlers == config.maxHandlers
    {
      ExitAccounting(config, events);
      awaitNotifier.Notify(err);
    }

    /** Runs the pump on a finite stream of batches that is then closed or stays
        open, under a context that may be cancelled already. The loop terminates,
        because every iteration reads a batch or launches a message, or it waits at
        line 55 for an open stream, having launched all there was. On exit every
        message read was launched, in order, except those left in the buffer by a
        cancellation that found the pump saturated; and a context that is done is
        obeyed at the first select that finds a free handler. The awaiter is
        notified exactly once, at the end. */
    method Start(stream: seq<seq<Message>>, closes: bool) returns (exit: Option<Exit>)
      requires Mirrors() && St() == Init.(cancelled := ctxDone) && !awaitNotifier.done
      modifies this, awaitNotifier
      ensures Mirrors() && St().received <= stream
      ensures Messages(St().workers) + buffer == Flatten(St().received)
      ensures match exit
              case None => WaitsForStream(St()) && St().received == stream && !closes && !awaitNotifier.done
              case Some(reason) =>
                && St().pc == Exited(reason)
                && awaitNotifier.done
                && (if reason == TransporterClosed
                    then St().received == stream && closes && awaitNotifier.err == Failed("transporter closed")
                    else ctxDone && awaitNotifier.err == Failed("context canceled"))
                && (buffer != [] ==> reason == ContextCancelled && activeHandlers == config.maxHandlers)
      ensures old(ctxDone) && |stream| > 0 && |stream[0]| < config.maxHandlers ==>
                exit == Some(ContextCancelled) && St().received == stream[..1]
    {
      var next := 0;
      ghost var stopsAtOnce := ctxDone && |stream| > 0 && |stream[0]| < config.maxHandlers;
      while true
        invariant Mirrors() && St().pc.Head? && !St().closed
        invariant 0 <= next <= |stream| && St().received == stream[..next] && !awaitNotifier.done
        invariant stopsAtOnce ==> next == 0 && buffer == [] && activeHandlers == 0 && ctxDone
        decreases |stream| - next, |buffer|
      {
        Interfere();
        if |buffer| == 0 {
          if next == |stream| && !closes {
            LaunchedAllAtHead(config, events);
            return None;
          }
          var ok := Fill(stream, next);
          if !ok {
            Finish(TransporterClosed, Failed("transporter closed"));
            return Some(TransporterClosed);
          }
          next := next + 1;
        } else {
          KeepBuffer();
        }
        var proceed := LaunchAndSelect();
        if !proceed {
          Finish(ContextCancelled, Failed("context canceled"));
          return Some(ContextCancelled);
        }
      }
    }
  }
}
