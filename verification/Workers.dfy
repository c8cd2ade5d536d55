/** core/message_pump.go, `dispatch`: the life of the goroutine that handles one
    message, as the sequence of calls it makes to the dispatcher and the
    transporter. */
module Workers {
  import opened Types
  import opened Retry

  datatype Kind = Dispatch | Delete | Poison

  datatype Stage = Dispatching | Deleting | Poisoning | Finishing | Done

  /** `dispatches`, `deletes` and `poisons` are the results returned so far;
      `calling` holds while a call of the current stage has not returned.
      `Finishing` is the deferred send to DispatchDone, `Done` is after it. */
  datatype Worker = Worker(
    msg: Message, stage: Stage, calling: bool,
    dispatches: seq<Error>, deletes: seq<Error>, poisons: seq<Error>)

  function Spawn(m: Message): Worker {
    Worker(m, Dispatching, false, [], [], [])
  }

  predicate CanBegin(w: Worker) {
    !w.calling && (w.stage.Dispatching? || w.stage.Deleting? || w.stage.Poisoning?)
  }

  function NextKind(w: Worker): Kind {
    match w.stage
    case Deleting => Delete
    case Poisoning => Poison
    case _ => Dispatch
  }

  function Begin(w: Worker): Worker {
    w.(calling := true)
  }

  /** The call in progress returns `r`. */
  function Return(count: int, w: Worker, r: Error): Worker {
    match w.stage
    case Dispatching =>
      var rs := w.dispatches + [r];
      w.(calling := false, dispatches := rs,
      stage := if More(count, rs) then Dispatching else if r.Nil? then Deleting else Poisoning)
    case Deleting =>
      var rs := w.deletes + [r];
      w.(calling := false, deletes := rs, stage := if More(count, rs) then Deleting else Finishing)
    case _ =>
      w.(calling := false, poisons := w.poisons + [r], stage := Finishing)
  }

  /** The dispatcher accepted the message. */
  predicate Handled(w: Worker) {
    !w.stage.Dispatching? && w.dispatches != [] && Last(w.dispatches).Nil?
  }

  /** Poison was called and has returned. */
  predicate Poisoned(w: Worker) {
    w.poisons != []
  }

  predicate Settled(w: Worker) {
    Handled(w) || Poisoned(w)
  }

  ghost predicate WorkerInv(count: int, w: Worker) {
    match w.stage
    case Dispatching => More(count, w.dispatches) && w.deletes == [] && w.poisons == []
    case Deleting =>
      Complete(count, w.dispatches) && Last(w.dispatches).Nil? && More(count, w.deletes) && w.poisons == []
    case Poisoning =>
      Complete(count, w.dispatches) && !Last(w.dispatches).Nil? && w.deletes == [] && w.poisons == []
    case _ => Ended(count, w)
  }

  /** All calls are made and returned. */
  ghost predicate Ended(count: int, w: Worker) {
    && !w.calling
    && Complete(count, w.dispatches)
    && if Last(w.dispatches).Nil? then Complete(count, w.deletes) && w.poisons == []
       else w.deletes == [] && |w.poisons| == 1
  }

  lemma ReturnKeepsInv(count: int, w: Worker, r: Error)
    requires WorkerInv(count, w) && w.calling
    ensures WorkerInv(count, Return(count, w, r)) && !Return(count, w, r).stage.Done?
    ensures Handled(w) ==> Handled(Return(count, w, r))
  {
  }

  // ---- The calls of one worker, in the order it begins them ----

  function Repeat(k: Kind, n: nat): seq<Kind> {
    seq(n, _ => k)
  }

  function Begun(w: Worker, stage: Stage): nat {
    if w.calling && w.stage == stage then 1 else 0
  }

  function Block(w: Worker): seq<Kind> {
    Repeat(Dispatch, |w.dispatches| + Begun(w, Dispatching))
    + Repeat(Poison, |w.poisons| + Begun(w, Poisoning))
    + Repeat(Delete, |w.deletes| + Begun(w, Deleting))
  }

  lemma BlockGrowsOnBegin(count: int, w: Worker)
    requires WorkerInv(count, w) && CanBegin(w)
    ensures Block(Begin(w)) == Block(w) + [NextKind(w)]
  {
  }

  lemma BlockStaysOnReturn(count: int, w: Worker, r: Error)
    requires WorkerInv(count, w) && w.calling
    ensures Block(Return(count, w, r)) == Block(w)
  {
  }

  /** The trace grammar of one message: between 1 and Count+1 dispatches, then
      either exactly one poison, after a last dispatch that failed, or between
      1 and Count+1 deletes, after a last dispatch that succeeded. */
  ghost predicate Grammar(count: int, w: Worker) {
    && 1 <= |w.dispatches| <= 1 + Max(count, 0)
    && if Handled(w) then
         && 1 <= |w.deletes| <= 1 + Max(count, 0)
         && Block(w) == Repeat(Dispatch, |w.dispatches|) + Repeat(Delete, |w.deletes|)
       else
         Block(w) == Repeat(Dispatch, |w.dispatches|) + [Poison]
  }

  lemma FinishedWorkerFollowsGrammar(count: int, w: Worker)
    requires WorkerInv(count, w) && (w.stage.Finishing? || w.stage.Done?)
    ensures Grammar(count, w) && Settled(w)
    ensures Handled(w) <==> !Poisoned(w)
  {
  }

  /** In every intermediate state: no delete has begun without a successful
      dispatch, and no message is both deleted and poisoned. */
  lemma NoDeleteWithoutDispatch(count: int, w: Worker)
    requires WorkerInv(count, w)
    ensures Delete in Block(w) ==> Handled(w) && Poison !in Block(w)
    ensures Poison in Block(w) ==> Complete(count, w.dispatches) && !Last(w.dispatches).Nil?
  {
  }

  // ---- Running a worker to the end ----

  datatype Behaviour = Behaviour(onDispatch: Operation, onDelete: Operation, onPoison: Error)

  function Answer(b: Behaviour, w: Worker): Error {
    match w.stage
    case Deleting => b.onDelete(|w.deletes|)
    case Poisoning => b.onPoison
    case _ => b.onDispatch(|w.dispatches|)
  }

  /** Calls a worker may still make. */
  function CallsLeft(count: int, w: Worker): int {
    match w.stage
    case Dispatching => 2 * (1 + Max(count, 0)) + 1 - |w.dispatches|
    case Deleting => 1 + Max(count, 0) + 1 - |w.deletes|
    case Poisoning => 1
    case _ => 0
  }

  lemma CallsLeftFalls(count: int, w: Worker, r: Error)
    requires WorkerInv(count, w) && !w.stage.Finishing? && !w.stage.Done?
    ensures 0 <= CallsLeft(count, Return(count, w, r)) < CallsLeft(count, w)
  {
  }

  /** The worker after it has begun and finished all its remaining calls, each
      answered as `b` says. */
  ghost function Drive(count: int, b: Behaviour, w: Worker): Worker
    requires WorkerInv(count, w)
    decreases CallsLeft(count, w)
  {
    if w.stage.Finishing? || w.stage.Done? then w
    else
      ReturnKeepsInv(count, Begin(w), Answer(b, w));
      CallsLeftFalls(count, Begin(w), Answer(b, w));
      Drive(count, b, Return(count, Begin(w), Answer(b, w)))
  }

  /** `w` has ended and every result it holds is the one `b` gives. */
  ghost predicate Outcome(count: int, b: Behaviour, m: Message, w: Worker) {
    && w.msg == m
    && w.stage == Finishing
    && Ended(count, w)
    && Agrees(b, w)
  }

  ghost predicate Agrees(b: Behaviour, w: Worker) {
    && (forall i :: 0 <= i < |w.dispatches| ==> w.dispatches[i] == b.onDispatch(i))
    && (forall i :: 0 <= i < |w.deletes| ==> w.deletes[i] == b.onDelete(i))
    && (forall i :: 0 <= i < |w.poisons| ==> w.poisons[i] == b.onPoison)
  }

  lemma {:induction false} DriveReachesOutcome(count: int, b: Behaviour, w: Worker)
    requires WorkerInv(count, w) && Agrees(b, w) && !w.stage.Done?
    ensures Outcome(count, b, w.msg, Drive(count, b, w))
    decreases CallsLeft(count, w)
  {
    if !w.stage.Finishing? {
      ReturnKeepsInv(count, Begin(w), Answer(b, w));
      CallsLeftFalls(count, Begin(w), Answer(b, w));
      DriveReachesOutcome(count, b, Return(count, Begin(w), Answer(b, w)));
    }
  }

  lemma OutcomeUnique(count: int, b: Behaviour, m: Message, w: Worker, v: Worker)
    requires Outcome(count, b, m, w) && Outcome(count, b, m, v)
    ensures w == v
  {
  }

  /** The goroutine body: dispatch with retries, then poison once or delete with
      retries. It ends in the state that stepping a fresh worker reaches. */
  method RunDispatch(policy: RetryPolicy, message: Message, b: Behaviour) returns (w: Worker)
    ensures Outcome(policy.count, b, message, w)
    ensures w == Drive(policy.count, b, Spawn(message))
  {
    var e, dispatches := policy.Execute(b.onDispatch);
    if !e.Nil? {
      w := Worker(message, Finishing, false, dispatches, [], [b.onPoison]);
    } else {
      var _, deletes := policy.Execute(b.onDelete);
      w := Worker(message, Finishing, false, dispatches, deletes, []);
    }
    DriveReachesOutcome(policy.count, b, Spawn(message));
    OutcomeUnique(policy.count, b, message, w, Drive(policy.count, b, Spawn(message)));
  }
}
