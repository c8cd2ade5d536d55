/** The life of consumer sessions: kafka/binder.go, Setup, ConsumeClaim and Cleanup
    of kafka/sarama_consumer_group_handler.go, core/default_message_pump_runner.go
    and the one-shot awaiters of core/awaiter.go, as one step relation.

    Awaiters and channels are counters of how often they were notified or closed,
    because a second close, or a send after a close, makes Go panic. The pump is
    reduced to the two ways it can exit (core/message_pump.go:56, 85, 96). */
module Sessions {
  import opened Types

  /** ConsumeClaim: line 118, with a message in hand at line 138, past the loop, returned. */
  datatype Loop = NotStarted | Receiving | Holding(msg: Message) | Leaving | Returned

  /** DefaultMessagePumpRunner.Run: before pump.Start, in the select, in the two joins, at the end. */
  datatype Runner = LaunchingHandler | Selecting | JoiningHandler | JoiningPump | Ended

  /** A goroutine of which only the start and the end matter. */
  datatype Goroutine = Unlaunched | Running | Gone

  /** Where Cleanup is with this partition. */
  datatype Clean = Untouched | Closing | AwaitingRunner | StoppingCommitter | AwaitingCommitter | Cleaned

  /** `handler`, `pump` and `committer` are the goroutines of the handler manager,
      the pump and the committer's event loop. */
  datatype Partition = Partition(
    buffered: bool, started: bool, loop: Loop, closes: nat, taken: seq<Message>, sent: seq<Message>,
    runner: Runner, handler: Goroutine, pump: Goroutine, committer: Goroutine,
    handlerNotified: nat, pumpNotified: nat, runnerNotified: nat,
    committerStops: nat, committerNotified: nat, clean: Clean)

  datatype PartitionEvent =
    | StartConsuming
    | TakeMessage(msg: Message)
    | ClaimCloses
    | SeeRunnerDone
    | Send
    | CloseAfterLoop
    | HandlerExits
    | PumpSeesClose
    | PumpSeesCancel
    | RunnerStep
    | CommitterEnds
    | CleanStep

  /** Setup, lines 64-76: a direct committer has no loop and is made already notified. */
  function NewPartition(buffered: bool): Partition {
    var (committer, notified) := if buffered then (Running, 0) else (Gone, 1);
    Partition(buffered, false, NotStarted, 0, [], [], LaunchingHandler, Running, Unlaunched, committer,
              0, 0, 0, 0, notified, Untouched)
  }

  /** Whether one goroutine of the partition can take the step; `cancelled` is the session's context. */
  predicate CanStep(x: Partition, e: PartitionEvent, cancelled: bool) {
    match e
    case StartConsuming => x.loop.NotStarted?
    case TakeMessage(_) => x.loop.Receiving?
    case ClaimCloses => x.loop.Receiving?
    case SeeRunnerDone => (x.loop.Receiving? || x.loop.Holding?) && x.runnerNotified > 0
    case Send => x.loop.Holding? && x.pump.Running?
    case CloseAfterLoop => x.loop.Leaving?
    case HandlerExits => x.handler.Running?
    case PumpSeesClose => x.pump.Running? && x.closes > 0
    case PumpSeesCancel => x.pump.Running? && cancelled
    case RunnerStep =>
      (match x.runner
       case LaunchingHandler => true
       case Selecting => x.handlerNotified > 0 || x.pumpNotified > 0
       case JoiningHandler => x.handlerNotified > 0
       case JoiningPump => x.pumpNotified > 0
       case Ended => false)
    case CommitterEnds => x.committer.Running? && x.committerStops > 0
    case CleanStep =>
      (match x.clean
       case Untouched => true
       case Closing => true
       case AwaitingRunner => x.runnerNotified > 0
       case StoppingCommitter => true
       case AwaitingCommitter => x.committerNotified > 0
       case Cleaned => false)
  }

  function RunnerNext(x: Partition): Partition {
    match x.runner
    case LaunchingHandler => x.(runner := Selecting, pump := Running)
    case Selecting => x.(runner := JoiningHandler)
    case JoiningHandler => x.(runner := JoiningPump)
    case _ => x.(runner := Ended, runnerNotified := x.runnerNotified + 1)
  }

  /** Cleanup, lines 87-93, for one partition; Stop of a direct committer does nothing. */
  function CleanNext(x: Partition): Partition {
    match x.clean
    case Untouched => x.(clean := Closing)
    case Closing => x.(clean := AwaitingRunner, closes := if x.started then x.closes else x.closes + 1)
    case AwaitingRunner => x.(clean := StoppingCommitter)
    case StoppingCommitter => x.(clean := AwaitingCommitter, committerStops := x.committerStops + 1)
    case _ => x.(clean := Cleaned)
  }

  function Step(x: Partition, e: PartitionEvent): Partition {
    match e
    case StartConsuming => x.(started := true, loop := Receiving)
    case TakeMessage(m) => x.(loop := Holding(m), taken := x.taken + [m])
    case ClaimCloses => x.(loop := Leaving)
    case SeeRunnerDone => x.(loop := Leaving)
    case Send => x.(loop := Receiving, sent := x.sent + if x.loop.Holding? then [x.loop.msg] else [])
    case CloseAfterLoop => x.(loop := Returned, closes := x.closes + 1)
    case HandlerExits => x.(handler := Gone, handlerNotified := x.handlerNotified + 1)
    case PumpSeesClose => x.(pump := Gone, pumpNotified := x.pumpNotified + 1)
    case PumpSeesCancel => x.(pump := Gone, pumpNotified := x.pumpNotified + 1)
    case RunnerStep => RunnerNext(x)
    case CommitterEnds => x.(committer := Gone, committerNotified := x.committerNotified + 1)
    case CleanStep => CleanNext(x)
  }

  /** The step closes what is closed already, notifies what is notified already, or
      sends a batch on a closed channel or to a pump that is not there. */
  predicate Misuses(x: Partition, e: PartitionEvent) {
    || (e.Send? && (x.closes > 0 || x.runner.LaunchingHandler? || x.pumpNotified > 0))
    || (e.CloseAfterLoop? && x.closes > 0)
    || (e.CleanStep? && x.clean.Closing? && !x.started && x.closes > 0)
    || (e.CleanStep? && x.clean.StoppingCommitter? && x.buffered && x.committerStops > 0)
    || (e.HandlerExits? && x.handlerNotified > 0)
    || ((e.PumpSeesClose? || e.PumpSeesCancel?) && x.pumpNotified > 0)
    || (e.RunnerStep? && x.runner.JoiningPump? && x.runnerNotified > 0)
    || (e.CommitterEnds? && x.committerNotified > 0)
  }

  // ---- Sessions and the binder ----

  /** The handler of the current session: until Setup has returned, until Cleanup
      begins, inside Cleanup, after it. */
  datatype Handler = SettingUp | Ready | Cleaning(current: Option<int>) | Done

  datatype Binder = Consuming | AwaitingDone | Checking | Exited

  /** `done` counts the closes of the handler's done channel, `notified` the
      notifications of the binder; `past` holds the partitions of ended sessions. */
  datatype State = State(
    binder: Binder, notified: nat, cancelled: bool, handler: Handler, sessionCancelled: bool,
    done: nat, parts: map<int, Partition>, past: seq<map<int, Partition>>)

  datatype Event =
    | Install(p: int, buffered: bool)
    | SetupReturns
    | On(p: int, e: PartitionEvent)
    | CancelSession
    | BeginCleanup
    | EndCleanup
    | ConsumeReturns(err: Error)
    | HandlerDone
    | CheckContext
    | Cancel

  const Init: State := State(Consuming, 0, false, SettingUp, false, 0, map[], [])

  predicate LoopIdle(x: Partition) {
    x.loop.NotStarted? || x.loop.Returned?
  }

  /** sarama's part of the protocol: Setup once per Consume, with distinct claims,
      ConsumeClaim at most once per claimed partition and only between Setup and
      Cleanup, Cleanup once, after every ConsumeClaim has returned. */
  predicate Enabled(s: State, ev: Event) {
    match ev
    case Install(p, _) => s.binder.Consuming? && s.handler.SettingUp? && p !in s.parts
    case SetupReturns => s.binder.Consuming? && s.handler.SettingUp?
    case On(p, e) =>
      && p in s.parts && CanStep(s.parts[p], e, s.sessionCancelled)
      && (e.StartConsuming? ==> s.handler.Ready?)
      && (e.CleanStep? ==>
            s.handler == Cleaning(Some(p)) || (s.handler == Cleaning(None) && s.parts[p].clean.Untouched?))
    case CancelSession => true
    case BeginCleanup => s.handler.Ready? && forall p :: p in s.parts ==> LoopIdle(s.parts[p])
    case EndCleanup => s.handler == Cleaning(None) && forall p :: p in s.parts ==> s.parts[p].clean.Cleaned?
    case ConsumeReturns(_) => s.binder.Consuming?
    case HandlerDone => s.binder.AwaitingDone? && s.done > 0
    case CheckContext => s.binder.Checking?
    case Cancel => true
  }

  /** Cleanup goes through the partitions one at a time, in any order. */
  function NextHandler(s: State, p: int, x: Partition, e: PartitionEvent): Handler {
    if !e.CleanStep? then s.handler
    else if x.clean.Cleaned? then Cleaning(None)
    else Cleaning(Some(p))
  }

  function Apply(s: State, ev: Event): State
    requires Enabled(s, ev)
  {
    match ev
    case Install(p, buffered) => s.(parts := s.parts[p := NewPartition(buffered)])
    case SetupReturns => s.(handler := Ready)
    case On(p, e) =>
      var x := Step(s.parts[p], e);
      s.(parts := s.parts[p := x], handler := NextHandler(s, p, x, e))
    case CancelSession => s.(sessionCancelled := true)
    case BeginCleanup => s.(handler := Cleaning(None))
    case EndCleanup => s.(handler := Done, done := s.done + 1)
    case ConsumeReturns(err) =>
      if err.Nil? then s.(binder := AwaitingDone) else s.(binder := Exited, notified := s.notified + 1)
    case HandlerDone => s.(binder := Checking)
    case CheckContext =>
      if s.cancelled then s.(binder := Exited, notified := s.notified + 1)
      else s.(binder := Consuming, handler := SettingUp, sessionCancelled := false, done := 0,
              parts := map[], past := s.past + [s.parts])
    case Cancel => s.(cancelled := true)
  }

  ghost predicate Valid(es: seq<Event>)
    decreases |es|, 0
  {
    es == [] || (Valid(es[..|es| - 1]) && Enabled(Run(es[..|es| - 1]), es[|es| - 1]))
  }

  ghost function Run(es: seq<Event>): State
    requires Valid(es)
    decreases |es|, 1
  {
    if es == [] then Init else Apply(Run(es[..|es| - 1]), es[|es| - 1])
  }

  // ---- Invariants ----

  function Order(k: Clean): nat {
    match k
    case Untouched => 0
    case Closing => 1
    case AwaitingRunner => 2
    case StoppingCommitter => 3
    case AwaitingCommitter => 4
    case Cleaned => 5
  }

  ghost predicate RunnerOk(x: Partition) {
    && !x.handler.Unlaunched? && x.handlerNotified == (if x.handler.Gone? then 1 else 0)
    && x.pumpNotified == (if x.pump.Gone? then 1 else 0)
    && x.runnerNotified == (if x.runner.Ended? then 1 else 0)
    && (x.runner.LaunchingHandler? <==> x.pump.Unlaunched?)
    && (x.runner.JoiningPump? || x.runner.Ended? ==> x.handler.Gone?)
    && (x.runner.Ended? ==> x.pump.Gone?)
  }

  /** Messages go to the pump in claim order; only the last one taken can be dropped. */
  ghost predicate TakenInOrder(x: Partition) {
    match x.loop
    case NotStarted => x.taken == x.sent == []
    case Receiving => x.taken == x.sent
    case Holding(m) => x.taken == x.sent + [m]
    case _ => x.sent <= x.taken && |x.taken| <= |x.sent| + 1
  }

  ghost predicate PartitionOk(x: Partition) {
    && (x.started <==> !x.loop.NotStarted?)
    && x.closes == (if x.loop.Returned? || (!x.started && Order(x.clean) >= 2) then 1 else 0)
    && TakenInOrder(x)
    && (x.loop.Leaving? || x.loop.Returned? ==> x.taken == x.sent || x.runnerNotified > 0)
    && RunnerOk(x)
    && x.committerStops == (if Order(x.clean) >= 4 then 1 else 0)
    && !x.committer.Unlaunched? && x.committerNotified == (if x.committer.Gone? then 1 else 0)
    && (x.committer.Gone? ==> !x.buffered || x.committerStops == 1) && (!x.buffered ==> x.committer.Gone?)
    && (Order(x.clean) >= 1 ==> LoopIdle(x))
    && (Order(x.clean) >= 3 ==> x.runner.Ended?)
    && (x.clean.Cleaned? ==> x.committerNotified == 1)
  }

  /** The channel is closed once, the runner has been notified once, after the
      handler manager and the pump have each exited once, and the committer has ended. */
  predicate TornDown(x: Partition) {
    && x.closes == 1
    && x.handlerNotified == 1 && x.pumpNotified == 1 && x.runnerNotified == 1
    && x.committerNotified == 1 && x.committerStops == 1
    && LoopIdle(x)
  }

  ghost predicate HandlerOk(handler: Handler, parts: map<int, Partition>) {
    match handler
    case SettingUp => forall p :: p in parts ==> parts[p].clean.Untouched?
    case Ready => forall p :: p in parts ==> parts[p].clean.Untouched?
    case Cleaning(current) =>
      && (current.Some? ==> current.value in parts)
      && (forall p :: p in parts ==> CleaningOk(parts[p], current == Some(p)))
    case Done => forall p :: p in parts ==> parts[p].clean.Cleaned?
  }

  ghost predicate CleaningOk(x: Partition, isCurrent: bool) {
    LoopIdle(x) && (isCurrent <==> 1 <= Order(x.clean) <= 4)
  }

  ghost predicate PartitionsOk(parts: map<int, Partition>) {
    forall p :: p in parts ==> PartitionOk(parts[p])
  }

  ghost predicate PastOk(past: seq<map<int, Partition>>) {
    forall i, p :: 0 <= i < |past| && p in past[i] ==> TornDown(past[i][p])
  }

  ghost predicate Inv(s: State) {
    && PartitionsOk(s.parts)
    && HandlerOk(s.handler, s.parts)
    && s.done == (if s.handler.Done? then 1 else 0)
    && (s.binder.Checking? ==> s.handler.Done?)
    && s.notified == (if s.binder.Exited? then 1 else 0)
    && PastOk(s.past)
  }

  /** What a step keeps of a partition. */
  ghost predicate Kept(x: Partition, e: PartitionEvent) {
    && PartitionOk(Step(x, e))
    && !Misuses(x, e)
    && Order(Step(x, e).clean) == Order(x.clean) + (if e.CleanStep? then 1 else 0)
    && (LoopIdle(x) && !e.StartConsuming? ==> LoopIdle(Step(x, e)))
  }

  lemma LoopStep(x: Partition, e: PartitionEvent, cancelled: bool)
    requires PartitionOk(x) && CanStep(x, e, cancelled)
    requires e.StartConsuming? || e.TakeMessage? || e.ClaimCloses? || e.SeeRunnerDone? || e.Send? || e.CloseAfterLoop?
    requires e.StartConsuming? ==> x.clean.Untouched?
    ensures Kept(x, e)
  {
  }

  lemma BackgroundStep(x: Partition, e: PartitionEvent, cancelled: bool)
    requires PartitionOk(x) && CanStep(x, e, cancelled)
    requires e.HandlerExits? || e.PumpSeesClose? || e.PumpSeesCancel? || e.CommitterEnds?
    ensures Kept(x, e)
  {
  }

  lemma RunnerKeeps(x: Partition, cancelled: bool)
    requires PartitionOk(x) && CanStep(x, RunnerStep, cancelled)
    ensures Kept(x, RunnerStep)
  {
  }

  lemma CleaningStep(x: Partition, cancelled: bool)
    requires PartitionOk(x) && CanStep(x, CleanStep, cancelled) && LoopIdle(x)
    ensures Kept(x, CleanStep)
  {
  }

  lemma PartitionStep(x: Partition, e: PartitionEvent, cancelled: bool)
    requires PartitionOk(x) && CanStep(x, e, cancelled)
    requires e.StartConsuming? ==> x.clean.Untouched?
    requires e.CleanStep? ==> LoopIdle(x)
    ensures Kept(x, e)
  {
    match e
    case CleanStep => CleaningStep(x, cancelled);
    case HandlerExits => BackgroundStep(x, e, cancelled);
    case PumpSeesClose => BackgroundStep(x, e, cancelled);
    case PumpSeesCancel => BackgroundStep(x, e, cancelled);
    case RunnerStep => RunnerKeeps(x, cancelled);
    case CommitterEnds => BackgroundStep(x, e, cancelled);
    case _ => LoopStep(x, e, cancelled);
  }

  lemma CleanedIsTornDown(x: Partition)
    requires PartitionOk(x) && x.clean.Cleaned?
    ensures TornDown(x)
  {
  }

  lemma DoneIsTornDown(s: State)
    requires PartitionsOk(s.parts) && HandlerOk(s.handler, s.parts) && s.handler.Done?
    ensures forall p :: p in s.parts ==> TornDown(s.parts[p])
  {
    forall p | p in s.parts ensures TornDown(s.parts[p]) {
      CleanedIsTornDown(s.parts[p]);
    }
  }

  /** A step of partition p that is not Cleanup's. */
  lemma OtherStepKeepsHandler(handler: Handler, parts: map<int, Partition>, p: int, x: Partition)
    requires HandlerOk(handler, parts) && p in parts && x.clean == parts[p].clean
    requires LoopIdle(parts[p]) && !handler.Ready? ==> LoopIdle(x)
    ensures HandlerOk(handler, parts[p := x])
  {
  }

  /** A step of Cleanup in partition p. */
  lemma CleanStepKeepsHandler(s: State, p: int, x: Partition)
    requires HandlerOk(s.handler, s.parts) && Enabled(s, On(p, CleanStep))
    requires LoopIdle(x) && Order(x.clean) == Order(s.parts[p].clean) + 1
    ensures HandlerOk(NextHandler(s, p, x, CleanStep), s.parts[p := x])
  {
  }

  lemma OnKeepsInv(s: State, p: int, e: PartitionEvent)
    requires Inv(s) && Enabled(s, On(p, e))
    ensures Inv(Apply(s, On(p, e))) && !Misuses(s.parts[p], e)
  {
    assert PartitionOk(s.parts[p]);
    assert s.handler.Cleaning? ==> CleaningOk(s.parts[p], s.handler.current == Some(p));
    PartitionStep(s.parts[p], e, s.sessionCancelled);
    if e.CleanStep? {
      CleanStepKeepsHandler(s, p, Step(s.parts[p], e));
    } else {
      OtherStepKeepsHandler(s.handler, s.parts, p, Step(s.parts[p], e));
    }
  }

  lemma StepKeepsInv(s: State, ev: Event)
    requires Inv(s) && Enabled(s, ev)
    ensures Inv(Apply(s, ev))
  {
    match ev
    case On(p, e) => OnKeepsInv(s, p, e);
    case CheckContext => DoneIsTornDown(s);
    case _ =>
  }

  lemma {:induction false} RunKeepsInv(es: seq<Event>)
    requires Valid(es)
    ensures Inv(Run(es))
  {
    if es != [] {
      RunKeepsInv(es[..|es| - 1]);
      StepKeepsInv(Run(es[..|es| - 1]), es[|es| - 1]);
    }
  }

  // ---- Main results ----

  /** In every run no goroutine ever closes a channel or notifies an awaiter twice,
      nor sends a batch after the close of its partition's message channel or when
      the pump is not there to receive it. Calls
      of Commit are not among the steps here: StopSafety says what they can do. */
  lemma NoSecondClose(es: seq<Event>, p: int, e: PartitionEvent)
    requires Valid(es) && Enabled(Run(es), On(p, e))
    ensures !Misuses(Run(es).parts[p], e)
  {
    RunKeepsInv(es);
    OnKeepsInv(Run(es), p, e);
  }

  ghost predicate Disciplined(x: Partition, ended: bool) {
    && x.closes <= 1
    && (ended ==> x.closes == 1)
    && (x.loop.Holding? ==> x.closes == 0)
    && x.sent <= x.taken && |x.taken| <= |x.sent| + 1
    && (x.sent == x.taken || x.loop.Holding? || x.runnerNotified > 0)
  }

  /** Whether or not a partition was started, and however its receive loop ended:
      its channel is closed at most once, exactly once by the end of Cleanup, and
      never while the loop is about to send; what was sent on it is what the claim
      delivered, in order, without at most the last message, which is dropped only
      when the runner has exited. */
  lemma CloseDiscipline(es: seq<Event>)
    requires Valid(es)
    ensures forall p :: p in Run(es).parts ==> Disciplined(Run(es).parts[p], Run(es).handler.Done?)
  {
    RunKeepsInv(es);
    var s := Run(es);
    forall p | p in s.parts ensures Disciplined(s.parts[p], s.handler.Done?) {
      assert PartitionOk(s.parts[p]);
    }
  }

  /** When the binder begins another session, and at all times after, every
      partition of every earlier session is torn down; the binder itself is
      notified at most once, when it exits. */
  lemma GenerationSeparation(es: seq<Event>)
    requires Valid(es)
    ensures forall i, p :: 0 <= i < |Run(es).past| && p in Run(es).past[i] ==> TornDown(Run(es).past[i][p])
    ensures Run(es).binder.Checking? ==> forall p :: p in Run(es).parts ==> TornDown(Run(es).parts[p])
    ensures Run(es).notified == if Run(es).binder.Exited? then 1 else 0
  {
    RunKeepsInv(es);
    if Run(es).binder.Checking? {
      DoneIsTornDown(Run(es));
    }
  }

  // ---- When the binder stops ----

  /** Events that end the binder: an error of Consume, or a look at a context that is done. */
  predicate IsExit(es: seq<Event>, ev: Event) {
    (ev.ConsumeReturns? && !ev.err.Nil?) || (ev.CheckContext? && Cancel in es)
  }

  function Exits(es: seq<Event>): nat {
    if es == [] then 0 else Exits(es[..|es| - 1]) + if IsExit(es[..|es| - 1], es[|es| - 1]) then 1 else 0
  }

  /** How often the binder looked at its context and went on. */
  function Rounds(es: seq<Event>): nat {
    if es == [] then 0
    else
      var prev, ev := es[..|es| - 1], es[|es| - 1];
      Rounds(prev) + if ev.CheckContext? && !IsExit(prev, ev) then 1 else 0
  }

  /** The session's context, and the claims of the current session, as told. */
  predicate CancelledSession(es: seq<Event>) {
    es != [] &&
    var prev, ev := es[..|es| - 1], es[|es| - 1];
    ev.CancelSession? || (CancelledSession(prev) && !(ev.CheckContext? && !IsExit(prev, ev)))
  }

  function Claimed(es: seq<Event>): map<int, bool> {
    if es == [] then map[]
    else
      var prev, ev := es[..|es| - 1], es[|es| - 1];
      if ev.Install? then Claimed(prev)[ev.p := ev.buffered]
      else if ev.CheckContext? && !IsExit(prev, ev) then map[]
      else Claimed(prev)
  }

  ghost predicate Claims(parts: map<int, Partition>, claimed: map<int, bool>) {
    parts.Keys == claimed.Keys && forall p :: p in parts ==> parts[p].buffered == claimed[p]
  }

  datatype Role = OfHandler | OfPump | OfCommitter

  /** The step ends the goroutine of that role. */
  predicate IsEnd(e: PartitionEvent, role: Role) {
    match role
    case OfHandler => e.HandlerExits?
    case OfPump => e.PumpSeesClose? || e.PumpSeesCancel?
    case OfCommitter => e.CommitterEnds?
  }

  /** How often it has ended since partition p was installed last. */
  function Ends(es: seq<Event>, p: int, role: Role): nat {
    if es == [] then 0
    else
      var ev := es[|es| - 1];
      if ev.Install? && ev.p == p then 0
      else Ends(es[..|es| - 1], p, role) + if ev.On? && ev.p == p && IsEnd(ev.e, role) then 1 else 0
  }

  /** Only goroutines that have ended have notified, a direct committer from the
      start, and the pump has ended for a reason. */
  ghost predicate Explained(x: Partition, es: seq<Event>, p: int, cancelled: bool) {
    && x.handlerNotified == Ends(es, p, OfHandler)
    && x.pumpNotified == Ends(es, p, OfPump)
    && x.committerNotified == Ends(es, p, OfCommitter) + (if x.buffered then 0 else 1)
    && (x.pumpNotified > 0 ==> x.closes > 0 || cancelled)
  }

  ghost predicate AllExplained(s: State, es: seq<Event>) {
    forall p :: p in s.parts ==> Explained(s.parts[p], es, p, s.sessionCancelled)
  }

  lemma StepExplains(s: State, es: seq<Event>, ev: Event)
    requires AllExplained(s, es) && Enabled(s, ev)
    ensures AllExplained(Apply(s, ev), es + [ev])
  {
    assert (es + [ev])[..|es|] == es;
    var t := Apply(s, ev);
    forall p | p in t.parts ensures Explained(t.parts[p], es + [ev], p, t.sessionCancelled) {
      assert p in s.parts ==> Explained(s.parts[p], es, p, s.sessionCancelled);
    }
  }

  ghost predicate Accounts(s: State, es: seq<Event>) {
    && s.cancelled == (Cancel in es)
    && s.sessionCancelled == CancelledSession(es)
    && Claims(s.parts, Claimed(es))
    && Exits(es) == (if s.binder.Exited? then 1 else 0)
    && |s.past| == Rounds(es)
  }

  lemma StepAccounts(s: State, es: seq<Event>, ev: Event)
    requires Accounts(s, es) && Enabled(s, ev) && (s.binder.Exited? ==> !ev.ConsumeReturns? && !ev.CheckContext?)
    ensures Accounts(Apply(s, ev), es + [ev])
  {
    assert (es + [ev])[..|es|] == es;
  }

  /** The binder has exited exactly when Consume has returned an error or it has
      found its context done, and then only once; otherwise it has gone on to
      another session as often as it looked. Contexts are done exactly when they
      were cancelled, the session's since the session began, and the current
      session holds exactly the claims installed since, buffered as configured,
      whose goroutines have notified as often as they have ended. */
  lemma {:induction false} StateIsExplained(es: seq<Event>)
    requires Valid(es)
    ensures Accounts(Run(es), es) && AllExplained(Run(es), es)
  {
    if es != [] {
      var prev, ev := es[..|es| - 1], es[|es| - 1];
      StateIsExplained(prev);
      StepAccounts(Run(prev), prev, ev);
      StepExplains(Run(prev), prev, ev);
      assert prev + [ev] == es;
    }
  }

  /** The waits of the pump and of its runner, which joins both that it started. */
  ghost predicate RunnerWaits(s: State, p: int, handlerGone: bool, pumpGone: bool, cancelled: bool)
    requires p in s.parts
  {
    var x := s.parts[p];
    && (x.handler.Running? ==> Enabled(s, On(p, HandlerExits)))
    && (x.pump.Running? ==>
          && (Enabled(s, On(p, PumpSeesCancel)) <==> cancelled)
          && (Enabled(s, On(p, PumpSeesClose)) <==> x.closes > 0))
    && (x.runner.Selecting? ==> (Enabled(s, On(p, RunnerStep)) <==> handlerGone || pumpGone))
    && (x.runner.JoiningHandler? ==> (Enabled(s, On(p, RunnerStep)) <==> handlerGone))
    && (x.runner.JoiningPump? ==> (Enabled(s, On(p, RunnerStep)) <==> pumpGone))
  }

  /** The waits of the receive loop. */
  ghost predicate LoopWaits(s: State, p: int)
    requires p in s.parts
  {
    var x := s.parts[p];
    && (x.loop.Receiving? ==> Enabled(s, On(p, ClaimCloses)) && forall m :: Enabled(s, On(p, TakeMessage(m))))
    && (x.loop.Holding? ==> (Enabled(s, On(p, Send)) <==> x.pump.Running?))
    && (x.loop.Receiving? || x.loop.Holding? ==> (Enabled(s, On(p, SeeRunnerDone)) <==> x.runner.Ended?))
  }

  /** The waits of the committer and of Cleanup. */
  ghost predicate CleanupWaits(s: State, p: int, committerGone: bool)
    requires p in s.parts
  {
    var x := s.parts[p];
    && (x.committer.Running? ==> (Enabled(s, On(p, CommitterEnds)) <==> x.committerStops > 0))
    && (s.handler == Cleaning(Some(p)) ==>
          && (x.clean.AwaitingRunner? ==> (Enabled(s, On(p, CleanStep)) <==> x.runner.Ended?))
          && (x.clean.AwaitingCommitter? ==> (Enabled(s, On(p, CleanStep)) <==> !x.buffered || committerGone)))
  }

  lemma RunnerWaitsOfState(s: State, p: int)
    requires p in s.parts
    ensures RunnerWaits(s, p, s.parts[p].handlerNotified > 0, s.parts[p].pumpNotified > 0, s.sessionCancelled)
  {
  }

  lemma OtherWaitsOfState(s: State, p: int)
    requires p in s.parts && PartitionOk(s.parts[p])
    ensures LoopWaits(s, p) && CleanupWaits(s, p, s.parts[p].committerNotified > 0)
  {
  }

  /** Every wait ends exactly for what it waits for: the pump exits when its
      channel is closed or its context done; the runner leaves its select when the
      handler manager or the pump has exited, and then joins both; the receive loop
      can take what the claim delivers, sends when the pump runs, and leaves when
      the runner has exited; the committer ends when stopped; and Cleanup waits for
      the runner and for the committer. */
  lemma WaitsAreExact(es: seq<Event>, p: int)
    requires Valid(es) && p in Run(es).parts
    ensures RunnerWaits(Run(es), p, Ends(es, p, OfHandler) > 0, Ends(es, p, OfPump) > 0, CancelledSession(es))
    ensures LoopWaits(Run(es), p) && CleanupWaits(Run(es), p, Ends(es, p, OfCommitter) > 0)
  {
    RunKeepsInv(es);
    StateIsExplained(es);
    var s := Run(es);
    assert PartitionOk(s.parts[p]) && Explained(s.parts[p], es, p, s.sessionCancelled);
    RunnerWaitsOfState(s, p);
    OtherWaitsOfState(s, p);
  }

  // ---- Cleanup is never stuck ----

  function Uncleaned(parts: map<int, Partition>): set<int> {
    set p | p in parts && !parts[p].clean.Cleaned?
  }

  /** Steps that the partition being cleaned, and what it waits for, can still take. */
  function StepsLeft(x: Partition): int {
    5 - Order(x.clean)
    + (if x.handlerNotified == 0 then 1 else 0)
    + (if x.pumpNotified == 0 then 1 else 0)
    + (match x.runner
       case LaunchingHandler => 4
       case Selecting => 3
       case JoiningHandler => 2
       case JoiningPump => 1
       case Ended => 0)
    + (if x.committerNotified == 0 then 1 else 0)
  }

  function Rank(s: State): int {
    if s.handler.Cleaning? && s.handler.current.Some? && s.handler.current.value in s.parts
    then StepsLeft(s.parts[s.handler.current.value]) else 13
  }

  /** What Cleanup, or the goroutine it waits for, can do next. */
  function CleanupMove(x: Partition): PartitionEvent {
    if x.clean.AwaitingRunner? && x.runnerNotified == 0 then
      if x.runner.LaunchingHandler? then RunnerStep
      else if x.pumpNotified == 0 then PumpSeesClose
      else if x.handlerNotified == 0 then HandlerExits
      else RunnerStep
    else if x.clean.AwaitingCommitter? && x.committerNotified == 0 then CommitterEnds
    else CleanStep
  }

  lemma MovePossible(x: Partition, cancelled: bool)
    requires PartitionOk(x) && 1 <= Order(x.clean) <= 4
    ensures CanStep(x, CleanupMove(x), cancelled) && !CleanupMove(x).StartConsuming?
    ensures 0 <= StepsLeft(Step(x, CleanupMove(x))) < StepsLeft(x) <= 12
  {
  }

  /** Cleanup has ended, or has come closer to its end. */
  ghost predicate Advances(s: State, s': State) {
    || s'.handler.Done?
    || (s'.handler.Cleaning? && Uncleaned(s'.parts) < Uncleaned(s.parts))
    || (s'.handler.Cleaning? && Uncleaned(s'.parts) == Uncleaned(s.parts) && 0 <= Rank(s') < Rank(s))
  }

  lemma CurrentMoves(s: State, p: int)
    requires p in s.parts && s.handler == Cleaning(Some(p))
    requires PartitionOk(s.parts[p]) && CleaningOk(s.parts[p], true)
    ensures Enabled(s, On(p, CleanupMove(s.parts[p])))
    ensures Advances(s, Apply(s, On(p, CleanupMove(s.parts[p]))))
  {
    var x, parts := s.parts[p], s.parts;
    MovePossible(x, s.sessionCancelled);
    var x' := Step(x, CleanupMove(x));
    assert Uncleaned(parts[p := x']) == if x'.clean.Cleaned? then Uncleaned(parts) - {p} else Uncleaned(parts);
    assert p in Uncleaned(parts);
  }

  lemma NextPartitionMoves(s: State, p: int)
    requires p in s.parts && s.handler == Cleaning(None)
    requires PartitionOk(s.parts[p]) && CleaningOk(s.parts[p], false) && !s.parts[p].clean.Cleaned?
    ensures Enabled(s, On(p, CleanStep)) && Advances(s, Apply(s, On(p, CleanStep)))
  {
  }

  lemma CleanupMoves(s: State) returns (ev: Event)
    requires PartitionsOk(s.parts) && HandlerOk(s.handler, s.parts) && s.handler.Cleaning?
    ensures Enabled(s, ev) && Advances(s, Apply(s, ev))
  {
    if s.handler.current.Some? {
      var p := s.handler.current.value;
      CurrentMoves(s, p);
      ev := On(p, CleanupMove(s.parts[p]));
    } else if p :| p in s.parts && !s.parts[p].clean.Cleaned? {
      NextPartitionMoves(s, p);
      ev := On(p, CleanStep);
    } else {
      ev := EndCleanup;
    }
  }

  lemma Extend(es: seq<Event>, ev: Event)
    requires Valid(es) && Enabled(Run(es), ev)
    ensures Valid(es + [ev]) && Run(es + [ev]) == Apply(Run(es), ev)
  {
  }

  /** From every reachable state inside Cleanup there is a way on that finishes it,
      so the binder can always get past a session: the waits of lines 90 and 93 and
      of the runner's joins can never be on each other. */
  lemma {:induction false} CleanupCanFinish(es: seq<Event>, s: State) returns (fs: seq<Event>)
    requires Valid(es) && Run(es) == s && s.handler.Cleaning?
    ensures Valid(fs) && es <= fs && Run(fs).handler.Done?
    decreases Uncleaned(s.parts), Rank(s)
  {
    RunKeepsInv(es);
    var ev := CleanupMoves(s);
    Extend(es, ev);
    var s' := Apply(s, ev);
    fs := es + [ev];
    if !s'.handler.Done? {
      fs := CleanupCanFinish(es + [ev], s');
    }
  }
}
