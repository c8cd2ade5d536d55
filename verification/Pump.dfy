/** core/message_pump.go: the pump goroutine, the workers it launches, the
    DispatchDone channel and the context, as one step relation.

    An event is one atomic action of one goroutine or of the environment. The
    pump's loop body is split at every point where another goroutine can act,
    including between the launches of lines 71-75. A run is any sequence of
    enabled events. */
module Pump {
  import opened Types
  import opened Retry
  import opened Workers

  /** MaxHandlers after the defaulting in NewMessagePump; a negative value makes
      `make(chan struct{}, maxHandlers)` panic. */
  type Handlers = n: nat | 1 <= n witness 1

  datatype Config = Config(maxHandlers: Handlers, retryCount: int)

  datatype Exit = TransporterClosed | ContextCancelled

  /** `Launching(n, k)`: k of the n goroutines of this iteration are launched. */
  datatype Pc = Head | Launching(n: nat, k: nat) | Selecting | Exited(reason: Exit)

  datatype Call = Call(worker: nat, kind: Kind)

  /** `tokens` is the number of elements in DispatchDone and `consumed` the number
      received from it. `workers` holds every worker ever launched, `received`
      every batch read and `trace` every call begun. */
  datatype State = State(
    pc: Pc, buffer: seq<Message>, active: int, tokens: nat, consumed: nat,
    workers: seq<Worker>, received: seq<seq<Message>>, trace: seq<Call>,
    closed: bool, cancelled: bool)

  datatype Event =
    | Receive(batch: seq<Message>)
    | Reuse
    | ObserveClose
    | Launch
    | EndLaunch
    | Consume
    | Continue
    | ObserveCancel
    | BeginCall(i: nat)
    | ReturnCall(i: nat, r: Error)
    | SendToken(i: nat)
    | Cancel
    | Close

  const Init: State := State(Head, [], 0, 0, 0, [], [], [], false, false)

  predicate Enabled(c: Config, s: State, e: Event) {
    match e
    case Receive(_) => s.pc.Head? && s.buffer == [] && !s.closed
    case Reuse => s.pc.Head? && s.buffer != []
    case ObserveClose => s.pc.Head? && s.buffer == [] && s.closed
    case Launch => s.pc.Launching? && s.pc.k < s.pc.n && s.pc.k < |s.buffer|
    case EndLaunch => s.pc.Launching? && s.pc.k == s.pc.n && s.pc.n <= |s.buffer|
    case Consume => s.pc.Selecting? && s.active == c.maxHandlers && s.tokens > 0
    case Continue => s.pc.Selecting? && s.active != c.maxHandlers && !s.cancelled
    case ObserveCancel => s.pc.Selecting? && s.cancelled
    case BeginCall(i) => i < |s.workers| && CanBegin(s.workers[i])
    case ReturnCall(i, _) => i < |s.workers| && s.workers[i].calling
    case SendToken(i) => i < |s.workers| && s.workers[i].stage.Finishing? && s.tokens < c.maxHandlers
    case Cancel => true
    case Close => !s.closed
  }

  /** Lines 66-70: how many messages this iteration dispatches. */
  function ToDispatch(c: Config, active: int, buffer: seq<Message>): int {
    if |buffer| > c.maxHandlers - active then c.maxHandlers - active else |buffer|
  }

  function StartLaunch(c: Config, s: State): State {
    s.(pc := Launching(Max(0, ToDispatch(c, s.active, s.buffer)), 0))
  }

  function Apply(c: Config, s: State, e: Event): State
    requires Enabled(c, s, e)
  {
    match e
    case Receive(batch) => StartLaunch(c, s.(buffer := batch, received := s.received + [batch]))
    case Reuse => StartLaunch(c, s)
    case ObserveClose => s.(pc := Exited(TransporterClosed))
    case Launch => s.(pc := Launching(s.pc.n, s.pc.k + 1), workers := s.workers + [Spawn(s.buffer[s.pc.k])])
    case EndLaunch => s.(pc := Selecting, buffer := s.buffer[s.pc.n..], active := s.active + s.pc.n)
    case Consume => s.(pc := Head, tokens := s.tokens - 1, consumed := s.consumed + 1, active := s.active - 1)
    case Continue => s.(pc := Head)
    case ObserveCancel => s.(pc := Exited(ContextCancelled))
    case BeginCall(i) =>
      s.(workers := s.workers[i := Begin(s.workers[i])], trace := s.trace + [Call(i, NextKind(s.workers[i]))])
    case ReturnCall(i, r) => s.(workers := s.workers[i := Return(c.retryCount, s.workers[i], r)])
    case SendToken(i) => s.(workers := s.workers[i := s.workers[i].(stage := Done)], tokens := s.tokens + 1)
    case Cancel => s.(cancelled := true)
    case Close => s.(closed := true)
  }

  /** `es` is a run of the pump, and `Run` the state it reaches. */
  ghost predicate Valid(c: Config, es: seq<Event>)
    decreases |es|, 0
  {
    es == [] || (Valid(c, es[..|es| - 1]) && Enabled(c, Run(c, es[..|es| - 1]), es[|es| - 1]))
  }

  ghost function Run(c: Config, es: seq<Event>): State
    requires Valid(c, es)
    decreases |es|, 1
  {
    if es == [] then Init else Apply(c, Run(c, es[..|es| - 1]), es[|es| - 1])
  }

  lemma Extend(c: Config, es: seq<Event>, e: Event)
    requires Valid(c, es) && Enabled(c, Run(c, es), e)
    ensures Valid(c, es + [e]) && Run(c, es + [e]) == Apply(c, Run(c, es), e)
  {
  }

  // ---- Counting workers ----

  /** Among the first n workers, those that have sent their token. */
  function DoneSet(ws: seq<Worker>, n: nat): set<nat>
    requires n <= |ws|
  {
    set i: nat | i < n && ws[i].stage.Done?
  }

  function DoneAmong(ws: seq<Worker>, n: nat): nat
    requires n <= |ws|
  {
    |DoneSet(ws, n)|
  }

  function DoneCount(ws: seq<Worker>): nat {
    DoneAmong(ws, |ws|)
  }

  function Running(ws: seq<Worker>): int {
    |ws| - DoneCount(ws)
  }

  function Below(n: nat): (r: set<nat>)
    ensures forall i: nat :: i in r <==> i < n
    ensures |r| == n
  {
    if n == 0 then {} else Below(n - 1) + {n - 1}
  }

  lemma SubsetSize<T>(a: set<T>, b: set<T>)
    requires a <= b
    ensures |a| <= |b|
    ensures |a| == |b| ==> a == b
    ensures |b - a| == |b| - |a|
  {
    assert b == a + (b - a);
  }

  lemma DoneAmongBound(ws: seq<Worker>, n: nat)
    requires n <= |ws|
    ensures DoneAmong(ws, n) <= n
    ensures DoneAmong(ws, n) == n ==> forall i :: 0 <= i < n ==> ws[i].stage.Done?
    ensures |Below(n) - DoneSet(ws, n)| == n - DoneAmong(ws, n)
  {
    SubsetSize(DoneSet(ws, n), Below(n));
    forall i | DoneAmong(ws, n) == n && 0 <= i < n ensures ws[i].stage.Done? {
      assert i in Below(n);
    }
  }

  lemma DoneAmongUpdate(ws: seq<Worker>, i: nat, w: Worker, n: nat)
    requires i < |ws| && !ws[i].stage.Done? && n <= |ws|
    ensures DoneAmong(ws[i := w], n) == DoneAmong(ws, n) + if i < n && w.stage.Done? then 1 else 0
  {
    assert DoneSet(ws[i := w], n) == DoneSet(ws, n) + if i < n && w.stage.Done? then {i} else {};
  }

  lemma DoneAmongAppend(ws: seq<Worker>, w: Worker, n: nat)
    requires !w.stage.Done? && n <= |ws|
    ensures DoneAmong(ws + [w], n) == DoneAmong(ws, n)
    ensures DoneCount(ws + [w]) == DoneCount(ws)
  {
    assert DoneSet(ws + [w], n) == DoneSet(ws, n);
    assert DoneSet(ws + [w], |ws| + 1) == DoneSet(ws, |ws|);
  }

  // ---- The invariant ----

  /** Goroutines launched in this iteration and not yet added to activeHandlers. */
  function Launched(pc: Pc): nat {
    if pc.Launching? then pc.k else 0
  }

  ghost predicate WorkersOk(count: int, ws: seq<Worker>) {
    forall i :: 0 <= i < |ws| ==> WorkerInv(count, ws[i])
  }

  /** Token conservation. */
  ghost predicate Tokens(s: State) {
    && DoneCount(s.workers) == s.tokens + s.consumed
    && |s.workers| == s.consumed + s.active + Launched(s.pc)
  }

  ghost predicate Control(c: Config, s: State) {
    && 0 <= s.active <= c.maxHandlers
    && match s.pc
       case Head => s.active == Min(|s.workers|, c.maxHandlers - 1)
       case Launching(n, k) =>
         && k <= n == Min(|s.buffer|, c.maxHandlers - s.active)
         && s.active == Min(|s.workers| - k, c.maxHandlers - 1)
       case Selecting =>
         s.active < c.maxHandlers ==> s.active == Min(|s.workers|, c.maxHandlers - 1) && s.buffer == []
       case Exited(TransporterClosed) => s.closed && s.buffer == []
       case Exited(ContextCancelled) => s.cancelled && (s.active < c.maxHandlers ==> s.buffer == [])
  }

  function Messages(ws: seq<Worker>): seq<Message> {
    seq(|ws|, i requires 0 <= i < |ws| => ws[i].msg)
  }

  /** Messages received but not launched. */
  function Waiting(s: State): seq<Message> {
    if Launched(s.pc) <= |s.buffer| then s.buffer[Launched(s.pc)..] else []
  }

  ghost predicate Fifo(s: State) {
    Messages(s.workers) + Waiting(s) == Flatten(s.received)
  }

  /** Message i starts only after at least i-MaxHandlers+1 earlier ones have finished. */
  ghost predicate Window(m: Handlers, ws: seq<Worker>) {
    forall i: nat :: i < |ws| ==> StartsLate(m, ws, i)
  }

  ghost predicate StartsLate(m: Handlers, ws: seq<Worker>, i: nat)
    requires i < |ws|
  {
    DoneAmong(ws, i) >= i + 1 - m
  }

  /** The calls of worker i, in trace order. */
  function Project(trace: seq<Call>, i: nat): seq<Kind> {
    if trace == [] then []
    else
      var call := trace[|trace| - 1];
      Project(trace[..|trace| - 1], i) + if call.worker == i then [call.kind] else []
  }

  ghost predicate Traced(trace: seq<Call>, ws: seq<Worker>) {
    && (forall k :: 0 <= k < |trace| ==> trace[k].worker < |ws|)
    && (forall i :: 0 <= i < |ws| ==> Project(trace, i) == Block(ws[i]))
  }

  ghost predicate Inv(c: Config, s: State) {
    && WorkersOk(c.retryCount, s.workers)
    && Tokens(s)
    && Control(c, s)
    && Fifo(s)
    && Window(c.maxHandlers, s.workers)
    && Traced(s.trace, s.workers)
  }

  lemma {:induction false} ProjectFresh(trace: seq<Call>, i: nat)
    requires forall k :: 0 <= k < |trace| ==> trace[k].worker < i
    ensures Project(trace, i) == []
  {
    if trace != [] {
      ProjectFresh(trace[..|trace| - 1], i);
    }
  }

  /** What a step that leaves the workers alone can still break. */
  ghost predicate LoopInv(c: Config, s: State) {
    Tokens(s) && Control(c, s) && Fifo(s)
  }

  lemma ReceiveKeepsLoop(c: Config, s: State, batch: seq<Message>)
    requires LoopInv(c, s) && Enabled(c, s, Receive(batch))
    ensures LoopInv(c, Apply(c, s, Receive(batch)))
  {
    FlattenAppend(s.received, batch);
    assert Waiting(Apply(c, s, Receive(batch))) == batch;
  }

  lemma EndLaunchKeepsLoop(c: Config, s: State)
    requires LoopInv(c, s) && Enabled(c, s, EndLaunch)
    ensures LoopInv(c, Apply(c, s, EndLaunch))
  {
    assert Waiting(Apply(c, s, EndLaunch)) == Waiting(s);
  }

  lemma OtherStepKeepsLoop(c: Config, s: State, e: Event)
    requires LoopInv(c, s) && Enabled(c, s, e)
    requires e.Reuse? || e.ObserveClose? || e.Consume? || e.Continue? || e.ObserveCancel? || e.Cancel? || e.Close?
    ensures LoopInv(c, Apply(c, s, e))
  {
    assert Waiting(Apply(c, s, e)) == Waiting(s);
  }

  /** Steps that leave the workers alone. */
  lemma PumpStepKeepsInv(c: Config, s: State, e: Event)
    requires Inv(c, s) && Enabled(c, s, e)
    requires !e.Launch? && !e.BeginCall? && !e.ReturnCall? && !e.SendToken?
    ensures Inv(c, Apply(c, s, e))
  {
    match e
    case Receive(batch) => ReceiveKeepsLoop(c, s, batch);
    case EndLaunch => EndLaunchKeepsLoop(c, s);
    case _ => OtherStepKeepsLoop(c, s, e);
  }

  lemma WindowAppend(m: Handlers, ws: seq<Worker>, w: Worker)
    requires Window(m, ws) && DoneCount(ws) >= |ws| + 1 - m && !w.stage.Done?
    ensures Window(m, ws + [w])
  {
    forall i: nat | i < |ws + [w]| ensures StartsLate(m, ws + [w], i) {
      DoneAmongAppend(ws, w, i);
      assert i < |ws| ==> StartsLate(m, ws, i);
    }
  }

  lemma WindowUpdate(m: Handlers, ws: seq<Worker>, i: nat, w: Worker)
    requires Window(m, ws) && i < |ws| && !ws[i].stage.Done?
    ensures Window(m, ws[i := w])
  {
    var ws' := ws[i := w];
    forall n: nat | n < |ws'| ensures StartsLate(m, ws', n) {
      DoneAmongUpdate(ws, i, w, n);
      assert StartsLate(m, ws, n);
    }
  }

  lemma TracedAppend(trace: seq<Call>, ws: seq<Worker>, m: Message)
    requires Traced(trace, ws)
    ensures Traced(trace, ws + [Spawn(m)])
  {
    ProjectFresh(trace, |ws|);
    assert Block(Spawn(m)) == [];
  }

  lemma TracedBegin(count: int, trace: seq<Call>, ws: seq<Worker>, i: nat)
    requires Traced(trace, ws) && i < |ws| && WorkerInv(count, ws[i]) && CanBegin(ws[i])
    ensures Traced(trace + [Call(i, NextKind(ws[i]))], ws[i := Begin(ws[i])])
  {
  }

  lemma LaunchKeepsFifo(s: State, w: Worker)
    requires Fifo(s) && s.pc.Launching? && s.pc.k < |s.buffer| && w.msg == s.buffer[s.pc.k]
    ensures Fifo(s.(pc := Launching(s.pc.n, s.pc.k + 1), workers := s.workers + [w]))
  {
  }

  lemma LaunchKeepsInv(c: Config, s: State)
    requires Inv(c, s) && Enabled(c, s, Launch)
    ensures Inv(c, Apply(c, s, Launch))
  {
    var w := Spawn(s.buffer[s.pc.k]);
    DoneAmongAppend(s.workers, w, |s.workers|);
    WindowAppend(c.maxHandlers, s.workers, w);
    TracedAppend(s.trace, s.workers, w.msg);
    LaunchKeepsFifo(s, w);
  }

  lemma UpdateWorker(m: Handlers, count: int, ws: seq<Worker>, i: nat, w: Worker)
    requires WorkersOk(count, ws) && Window(m, ws) && i < |ws| && !ws[i].stage.Done?
    requires w.msg == ws[i].msg && WorkerInv(count, w)
    ensures WorkersOk(count, ws[i := w]) && Window(m, ws[i := w]) && Messages(ws[i := w]) == Messages(ws)
    ensures DoneCount(ws[i := w]) == DoneCount(ws) + if w.stage.Done? then 1 else 0
  {
    WindowUpdate(m, ws, i, w);
    DoneAmongUpdate(ws, i, w, |ws|);
  }

  /** Worker i becomes w; a finished worker adds its token. */
  lemma WorkerUpdateKeepsInv(c: Config, s: State, i: nat, w: Worker, trace: seq<Call>)
    requires Inv(c, s) && i < |s.workers| && !s.workers[i].stage.Done?
    requires w.msg == s.workers[i].msg && WorkerInv(c.retryCount, w)
    requires Traced(trace, s.workers[i := w])
    ensures Inv(c, s.(workers := s.workers[i := w], trace := trace,
                      tokens := s.tokens + if w.stage.Done? then 1 else 0))
  {
    UpdateWorker(c.maxHandlers, c.retryCount, s.workers, i, w);
  }

  lemma BeginKeepsInv(c: Config, s: State, i: nat)
    requires Inv(c, s) && Enabled(c, s, BeginCall(i))
    ensures Inv(c, Apply(c, s, BeginCall(i)))
  {
    var w := s.workers[i];
    TracedBegin(c.retryCount, s.trace, s.workers, i);
    WorkerUpdateKeepsInv(c, s, i, Begin(w), s.trace + [Call(i, NextKind(w))]);
  }

  lemma TracedReturn(count: int, trace: seq<Call>, ws: seq<Worker>, i: nat, r: Error)
    requires Traced(trace, ws) && WorkersOk(count, ws) && i < |ws| && ws[i].calling
    ensures Traced(trace, ws[i := Return(count, ws[i], r)])
    ensures WorkerInv(count, Return(count, ws[i], r)) && !Return(count, ws[i], r).stage.Done? && !ws[i].stage.Done?
  {
    assert WorkerInv(count, ws[i]);
    ReturnKeepsInv(count, ws[i], r);
    BlockStaysOnReturn(count, ws[i], r);
  }

  lemma ReturnKeepsPumpInv(c: Config, s: State, i: nat, r: Error)
    requires Inv(c, s) && Enabled(c, s, ReturnCall(i, r))
    ensures Inv(c, Apply(c, s, ReturnCall(i, r)))
  {
    TracedReturn(c.retryCount, s.trace, s.workers, i, r);
    WorkerUpdateKeepsInv(c, s, i, Return(c.retryCount, s.workers[i], r), s.trace);
  }

  lemma DoneKeepsWorkerInv(count: int, w: Worker)
    requires WorkerInv(count, w) && w.stage.Finishing?
    ensures WorkerInv(count, w.(stage := Done)) && Block(w.(stage := Done)) == Block(w)
  {
  }

  lemma TracedDone(count: int, trace: seq<Call>, ws: seq<Worker>, i: nat)
    requires Traced(trace, ws) && WorkersOk(count, ws) && i < |ws| && ws[i].stage.Finishing?
    ensures Traced(trace, ws[i := ws[i].(stage := Done)]) && WorkerInv(count, ws[i].(stage := Done))
  {
  }

  lemma SendTokenKeepsInv(c: Config, s: State, i: nat)
    requires Inv(c, s) && Enabled(c, s, SendToken(i))
    ensures Inv(c, Apply(c, s, SendToken(i)))
  {
    TracedDone(c.retryCount, s.trace, s.workers, i);
    WorkerUpdateKeepsInv(c, s, i, s.workers[i].(stage := Done), s.trace);
  }

  lemma StepKeepsInv(c: Config, s: State, e: Event)
    requires Inv(c, s) && Enabled(c, s, e)
    ensures Inv(c, Apply(c, s, e))
  {
    match e
    case Launch => LaunchKeepsInv(c, s);
    case BeginCall(i) => BeginKeepsInv(c, s, i);
    case ReturnCall(i, r) => ReturnKeepsPumpInv(c, s, i, r);
    case SendToken(i) => SendTokenKeepsInv(c, s, i);
    case _ => PumpStepKeepsInv(c, s, e);
  }

  lemma InitTokens()
    ensures Tokens(Init)
  {
  }

  lemma InitOthers(c: Config)
    ensures WorkersOk(c.retryCount, Init.workers) && Window(c.maxHandlers, Init.workers)
    ensures Control(c, Init) && Fifo(Init) && Traced(Init.trace, Init.workers)
  {
  }

  lemma InitInv(c: Config)
    ensures Inv(c, Init)
  {
    InitTokens();
    InitOthers(c);
  }

  lemma {:induction false} RunKeepsInv(c: Config, es: seq<Event>)
    requires Valid(c, es)
    ensures Inv(c, Run(c, es))
  {
    if es == [] {
      InitInv(c);
    } else {
      RunKeepsInv(c, es[..|es| - 1]);
      StepKeepsInv(c, Run(c, es[..|es| - 1]), es[|es| - 1]);
    }
  }
}
