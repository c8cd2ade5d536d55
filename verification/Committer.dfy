/** kafka/buffered_committer.go and kafka/direct_committer.go: what the committers
    do with a sequence of requests and timer ticks, one at a time.

    The pre-commit hook, the clock and the ticker are parameters: every event
    carries what the hook answers if it is invoked, and what the clock shows when
    the commit is done. Times are in nanoseconds. */
module Committer {
  import opened Types

  /** `hook` holds when a PreCommitHookPath is configured. */
  datatype Config = Config(batchSize: int, interval: int, hook: bool)

  datatype State = State(observed: nat, lastSeen: Option<Message>, lastCommit: int)

  datatype Event =
    | Request(msg: Message, hook: Error, now: int)
    | Tick(at: int, hook: Error, now: int)

  /** The committer's fields, the arguments of commitFunc, and the replies, so far. */
  datatype Log = Log(state: State, commits: seq<Message>, replies: seq<Error>)

  /** The pre-commit hook is configured and refuses. */
  predicate Refuses(c: Config, hook: Error) {
    c.hook && !hook.Nil?
  }

  function GetLatestMessage(a: Option<Message>, b: Option<Message>): Option<Message> {
    if a.None? then b
    else if b.None? then a
    else if a.value.offset < b.value.offset then b
    else a
  }

  function CommitAndReset(c: Config, l: Log, m: Message, hook: Error, now: int): (Log, Error) {
    if c.hook && !hook.Nil? then (l, hook)
    else (l.(state := State(0, None, now), commits := l.commits + [m]), Nil)
  }

  /** Lines 91-95: the request is counted and remembered. */
  function Observe(s: State, m: Message): (r: State)
    ensures r.lastSeen.Some?
  {
    s.(observed := s.observed + 1, lastSeen := GetLatestMessage(Some(m), s.lastSeen))
  }

  predicate TickCommits(c: Config, s: State, at: int) {
    at - s.lastCommit >= c.interval && s.lastSeen.Some?
  }

  function Step(c: Config, l: Log, e: Event): Log {
    match e
    case Tick(at, hook, now) =>
      if TickCommits(c, l.state, at) then CommitAndReset(c, l, l.state.lastSeen.value, hook, now).0 else l
    case Request(m, hook, now) =>
      var l1 := l.(state := Observe(l.state, m));
      if l1.state.observed < c.batchSize then l1.(replies := l1.replies + [Nil])
      else
        var (l2, err) := CommitAndReset(c, l1, l1.state.lastSeen.value, hook, now);
        l2.(replies := l2.replies + [err])
  }

  function Start(start: int): Log {
    Log(State(0, None, start), [], [])
  }

  /** The log after `es`, for a committer made at time `start`. */
  function RunLog(c: Config, start: int, es: seq<Event>): Log {
    if es == [] then Start(start) else Step(c, RunLog(c, start, es[..|es| - 1]), es[|es| - 1])
  }

  lemma RunLogAppend(c: Config, start: int, es: seq<Event>, e: Event)
    ensures RunLog(c, start, es + [e]) == Step(c, RunLog(c, start, es), e)
  {
  }

  /** The requests among the events: what a DirectCommitter would commit. */
  function Requests(es: seq<Event>): seq<Message> {
    if es == [] then []
    else
      var e := es[|es| - 1];
      Requests(es[..|es| - 1]) + if e.Request? then [e.msg] else []
  }

  lemma RequestsAppend(es: seq<Event>, e: Event)
    ensures Requests(es + [e]) == Requests(es) + if e.Request? then [e.msg] else []
  {
  }

  // ---- The classes ----

  class DirectCommitter {
    var marked: seq<Message>

    constructor ()
      ensures marked == []
    {
      marked := [];
    }

    method Commit(m: Message) returns (err: Error)
      modifies this
      ensures marked == old(marked) + [m] && err == Nil
    {
      marked := marked + [m];
      return Nil;
    }
  }

  class BufferedCommitter {
    const config: Config
    var numberOfMessagesObserved: nat
    var lastSeenMessage: Option<Message>
    var lastCommitTime: int
    /** The arguments commitFunc has been called with. */
    var marked: seq<Message>

    function Snapshot(replies: seq<Error>): Log
      reads this
    {
      Log(State(numberOfMessagesObserved, lastSeenMessage, lastCommitTime), marked, replies)
    }

    constructor (config: Config, now: int)
      ensures this.config == config && Snapshot([]) == Start(now)
    {
      this.config := config;
      numberOfMessagesObserved, lastSeenMessage, lastCommitTime, marked := 0, None, now, [];
    }

    method DoCommitAndReset(msg: Message, hook: Error, now: int, ghost replies: seq<Error>) returns (err: Error)
      modifies this
      ensures (Snapshot(replies), err) == CommitAndReset(config, old(Snapshot(replies)), msg, hook, now)
      ensures Refuses(config, hook) ==> err == hook && Snapshot([]) == old(Snapshot([]))
      ensures !Refuses(config, hook) ==> err == Nil && marked == old(marked) + [msg] && Emptied(now)
    {
      if config.hook {
        if !hook.Nil? {
          return hook;
        }
      }
      marked := marked + [msg];
      numberOfMessagesObserved := 0;
      lastCommitTime := now;
      lastSeenMessage := None;
      return Nil;
    }

    /** Nothing is pending since the commit at time `now`. */
    predicate Emptied(now: int)
      reads this
    {
      numberOfMessagesObserved == 0 && lastSeenMessage == None && lastCommitTime == now
    }

    /** One round of the event loop that takes a timer tick. */
    method OnTick(at: int, hook: Error, now: int, ghost replies: seq<Error>)
      modifies this
      ensures Snapshot(replies) == Step(config, old(Snapshot(replies)), Tick(at, hook, now))
      ensures if old(lastSeenMessage).None? || at < old(lastCommitTime) + config.interval || Refuses(config, hook)
              then Snapshot([]) == old(Snapshot([]))
              else marked == old(marked) + [old(lastSeenMessage).value] && Emptied(now)
    {
      if at - lastCommitTime < config.interval {
        return;
      }
      if lastSeenMessage.None? {
        return;
      }
      var _ := DoCommitAndReset(lastSeenMessage.value, hook, now, replies);
    }

    /** One round of the event loop that takes a request; `err` completes it. */
    method OnRequest(m: Message, hook: Error, now: int, ghost replies: seq<Error>) returns (err: Error)
      modifies this
      ensures Snapshot(replies + [err]) == Step(config, old(Snapshot(replies)), Request(m, hook, now))
      ensures var last := old(lastSeenMessage);
              var latest := if last.Some? && m.offset < last.value.offset then last.value else m;
              var full := old(numberOfMessagesObserved) + 1 >= config.batchSize;
              if full && !Refuses(config, hook) then
                marked == old(marked) + [latest] && Emptied(now) && err == Nil
              else
                && marked == old(marked) && lastCommitTime == old(lastCommitTime)
                && numberOfMessagesObserved == old(numberOfMessagesObserved) + 1 && lastSeenMessage == Some(latest)
                && err == if full then hook else Nil
    {
      numberOfMessagesObserved := numberOfMessagesObserved + 1;
      var msg := GetLatestMessage(Some(m), lastSeenMessage);
      lastSeenMessage := msg;
      if numberOfMessagesObserved < config.batchSize {
        return Nil;
      }
      err := DoCommitAndReset(msg.value, hook, now, replies);
    }

    /** The event loop, from its start until commitRequests is closed. */
    method Run(events: seq<Event>) returns (replies: seq<Error>)
      requires Snapshot([]) == Start(lastCommitTime)
      modifies this
      ensures Snapshot(replies) == RunLog(config, old(lastCommitTime), events)
      ensures |replies| == |Requests(events)|
    {
      replies := [];
      for i := 0 to |events|
        invariant Snapshot(replies) == RunLog(config, old(lastCommitTime), events[..i])
        invariant |replies| == |Requests(events[..i])|
      {
        assert events[..i + 1] == events[..i] + [events[i]];
        RunLogAppend(config, old(lastCommitTime), events[..i], events[i]);
        RequestsAppend(events[..i], events[i]);
        match events[i] {
          case Tick(at, hook, now) => OnTick(at, hook, now, replies);
          case Request(m, hook, now) =>
            var err := OnRequest(m, hook, now, replies);
            replies := replies + [err];
        }
      }
      assert events[..|events|] == events;
    }
  }

  // ---- Batch partition and the counting of failed hooks ----

  /** Requests committed together; `full` unless the timer committed them;
      `failed` counts the failed buffer-full commits before the successful one. */
  datatype Block = Block(msgs: seq<Message>, full: bool, failed: nat)

  /** The requests grouped by what should commit them: `tail` is pending, `failed`
      counts the refused buffer-full commits of the tail, `since` is the time of the
      last commit and `answers` what the requests are told. */
  datatype History = History(blocks: seq<Block>, tail: seq<Message>, failed: nat, since: int, answers: seq<Error>)

  /** What an event should do, from the lists alone: a request commits the tail it
      completes to CommitBatchSize or more, a tick commits a nonempty tail when the
      last commit is an interval old, and neither does when the hook refuses. */
  function Group(c: Config, h: History, e: Event): History {
    match e
    case Request(m, hook, now) =>
      var tail := h.tail + [m];
      if |tail| < c.batchSize then h.(tail := tail, answers := h.answers + [Nil])
      else if Refuses(c, hook) then h.(tail := tail, failed := h.failed + 1, answers := h.answers + [hook])
      else History(h.blocks + [Block(tail, true, h.failed)], [], 0, now, h.answers + [Nil])
    case Tick(at, hook, now) =>
      if h.tail == [] || at < h.since + c.interval || Refuses(c, hook) then h
      else History(h.blocks + [Block(h.tail, false, h.failed)], [], 0, now, h.answers)
  }

  function Hist(c: Config, start: int, es: seq<Event>): History {
    if es == [] then History([], [], 0, start, []) else Group(c, Hist(c, start, es[..|es| - 1]), es[|es| - 1])
  }

  /** m has the largest offset in ms, and is the last one that does. */
  ghost predicate IsLatest(ms: seq<Message>, m: Message) {
    exists i :: 0 <= i < |ms| && LatestAt(ms, m, i)
  }

  ghost predicate LatestAt(ms: seq<Message>, m: Message, i: int)
    requires 0 <= i < |ms|
  {
    && ms[i] == m
    && (forall j :: 0 <= j <= i ==> ms[j].offset <= m.offset)
    && (forall j :: i < j < |ms| ==> ms[j].offset < m.offset)
  }

  function BlockMessages(bs: seq<Block>): seq<seq<Message>> {
    seq(|bs|, i requires 0 <= i < |bs| => bs[i].msgs)
  }

  /** The number of failed buffer-full commits among n requests that were not committed before. */
  function Excess(c: Config, n: int): int {
    Max(0, n - (c.batchSize - 1))
  }

  ghost predicate BlockOk(c: Config, b: Block, m: Message) {
    && IsLatest(b.msgs, m)
    && if b.full then |b.msgs| == Max(c.batchSize, 1) + b.failed else b.failed == Excess(c, |b.msgs|)
  }

  ghost predicate TailOk(c: Config, tail: seq<Message>, failed: nat, s: State) {
    && s.observed == |tail|
    && failed == Excess(c, |tail|)
    && (s.lastSeen.None? <==> tail == [])
    && (tail != [] ==> IsLatest(tail, s.lastSeen.value))
  }

  ghost predicate Partitioned(c: Config, requests: seq<Message>, h: History, l: Log) {
    && requests == Flatten(BlockMessages(h.blocks)) + h.tail
    && |l.commits| == |h.blocks|
    && (forall k :: 0 <= k < |h.blocks| ==> BlockOk(c, h.blocks[k], l.commits[k]))
    && TailOk(c, h.tail, h.failed, l.state)
    && l.state.lastCommit == h.since && l.replies == h.answers
  }

  lemma LatestAppend(ms: seq<Message>, last: Option<Message>, m: Message)
    requires if ms == [] then last.None? else last.Some? && IsLatest(ms, last.value)
    ensures IsLatest(ms + [m], GetLatestMessage(Some(m), last).value)
  {
    if ms == [] || m.offset >= last.value.offset {
      assert LatestAt(ms + [m], m, |ms|);
    } else {
      var i :| 0 <= i < |ms| && LatestAt(ms, last.value, i);
      assert LatestAt(ms + [m], last.value, i);
    }
  }

  lemma BlocksGrow(bs: seq<Block>, b: Block)
    ensures Flatten(BlockMessages(bs + [b])) == Flatten(BlockMessages(bs)) + b.msgs
  {
    assert BlockMessages(bs + [b]) == BlockMessages(bs) + [b.msgs];
    FlattenAppend(BlockMessages(bs), b.msgs);
  }

  lemma PartitionTick(c: Config, requests: seq<Message>, h: History, l: Log, e: Event)
    requires 1 <= c.batchSize && e.Tick? && Partitioned(c, requests, h, l)
    ensures Partitioned(c, requests, Group(c, h, e), Step(c, l, e))
  {
    BlocksGrow(h.blocks, Block(h.tail, false, h.failed));
  }

  /** The tail with one more request, whether or not its commit is tried and fails. */
  lemma TailGrows(c: Config, tail: seq<Message>, failed: nat, s: State, m: Message)
    requires 1 <= c.batchSize && TailOk(c, tail, failed, s)
    ensures IsLatest(tail + [m], Observe(s, m).lastSeen.value)
    ensures Observe(s, m).observed == |tail + [m]|
    ensures TailOk(c, tail + [m], failed + if |tail| + 1 < c.batchSize then 0 else 1, Observe(s, m))
  {
    LatestAppend(tail, s.lastSeen, m);
  }

  lemma PartitionRequest(c: Config, requests: seq<Message>, h: History, l: Log, e: Event)
    requires 1 <= c.batchSize && e.Request? && Partitioned(c, requests, h, l)
    ensures Partitioned(c, requests + [e.msg], Group(c, h, e), Step(c, l, e))
  {
    var l', tail := Step(c, l, e), h.tail + [e.msg];
    TailGrows(c, h.tail, h.failed, l.state, e.msg);
    assert requests + [e.msg] == Flatten(BlockMessages(h.blocks)) + tail;
    if |l'.commits| > |l.commits| {
      var b := Block(tail, true, h.failed);
      BlocksGrow(h.blocks, b);
      assert BlockOk(c, b, Observe(l.state, e.msg).lastSeen.value);
      assert requests + [e.msg] == Flatten(BlockMessages(h.blocks + [b])) + [];
    }
  }

  /** For every interleaving of requests, ticks and hook answers, the request log
      splits into consecutive nonempty blocks, each committed exactly once, at its
      latest message, and a pending tail, which is what the committer's fields
      describe; blocks, tail and replies are those of the reference grouping. A
      buffer-full block has CommitBatchSize requests, plus one for each commit that
      the hook refused before. */
  lemma {:induction false} BatchPartition(c: Config, start: int, es: seq<Event>)
    requires 1 <= c.batchSize
    ensures Partitioned(c, Requests(es), Hist(c, start, es), RunLog(c, start, es))
  {
    if es != [] {
      var prev, e := es[..|es| - 1], es[|es| - 1];
      BatchPartition(c, start, prev);
      if e.Tick? {
        PartitionTick(c, Requests(prev), Hist(c, start, prev), RunLog(c, start, prev), e);
        assert Requests(es) == Requests(prev);
      } else {
        PartitionRequest(c, Requests(prev), Hist(c, start, prev), RunLog(c, start, prev), e);
      }
    }
  }

  lemma {:induction false} NoHookNoFailure(c: Config, start: int, es: seq<Event>)
    requires !c.hook
    ensures Hist(c, start, es).failed == 0
    ensures forall k :: 0 <= k < |Hist(c, start, es).blocks| ==> Hist(c, start, es).blocks[k].failed == 0
  {
    if es != [] {
      NoHookNoFailure(c, start, es[..|es| - 1]);
    }
  }

  /** numberOfMessagesObserved beyond CommitBatchSize-1 counts exactly the failed
      buffer-full commits since the last successful commit. Without a hook fewer
      than CommitBatchSize requests are ever pending, and every buffer-full block
      has exactly CommitBatchSize requests. */
  lemma FailedHookCount(c: Config, start: int, es: seq<Event>)
    requires 1 <= c.batchSize
    ensures Excess(c, RunLog(c, start, es).state.observed) == Hist(c, start, es).failed
    ensures !c.hook ==> RunLog(c, start, es).state.observed < c.batchSize
    ensures !c.hook ==> forall b :: b in Hist(c, start, es).blocks && b.full ==> |b.msgs| == c.batchSize
  {
    BatchPartition(c, start, es);
    if !c.hook {
      NoHookNoFailure(c, start, es);
    }
  }

  /** A request is answered with the hook's error exactly when it fills the buffer
      of what is pending and the hook refuses; otherwise with nil. */
  lemma ReplyOfRequest(c: Config, start: int, es: seq<Event>, m: Message, hook: Error, now: int)
    requires 1 <= c.batchSize
    ensures RunLog(c, start, es + [Request(m, hook, now)]).replies
            == RunLog(c, start, es).replies
               + [if |Hist(c, start, es).tail| + 1 < c.batchSize || !c.hook then Nil else hook]
  {
    BatchPartition(c, start, es);
    RunLogAppend(c, start, es, Request(m, hook, now));
  }

  /** A request whose commit the hook refuses, if it fills the buffer at all, is not
      committed and stays pending with all that was pending before. */
  lemma RefusedRequestStaysPending(c: Config, start: int, es: seq<Event>, m: Message, hook: Error, now: int)
    requires 1 <= c.batchSize && Refuses(c, hook)
    ensures var l, l' := RunLog(c, start, es), RunLog(c, start, es + [Request(m, hook, now)]);
            && l'.commits == l.commits
            && l'.state.observed == l.state.observed + 1
            && l'.state.lastSeen.Some? && IsLatest(Hist(c, start, es).tail + [m], l'.state.lastSeen.value)
            && l'.state.lastCommit == l.state.lastCommit
  {
    BatchPartition(c, start, es);
    RunLogAppend(c, start, es, Request(m, hook, now));
    TailGrows(c, Hist(c, start, es).tail, Hist(c, start, es).failed, RunLog(c, start, es).state, m);
  }

  function Permissions(es: seq<Event>): nat {
    if es == [] then 0 else Permissions(es[..|es| - 1]) + if es[|es| - 1].hook.Nil? then 1 else 0
  }

  /** With a hook configured nothing is committed without its permission. */
  lemma {:induction false} CommitsNeedPermission(c: Config, start: int, es: seq<Event>)
    requires c.hook
    ensures |RunLog(c, start, es).commits| <= Permissions(es)
  {
    if es != [] {
      CommitsNeedPermission(c, start, es[..|es| - 1]);
    }
  }

  // ---- Refinement of the direct committer ----

  /** The largest offset marked, which is what the broker keeps. */
  function Watermark(ms: seq<Message>): Option<int> {
    if ms == [] then None else Join(Watermark(ms[..|ms| - 1]), Some(ms[|ms| - 1].offset))
  }

  function Join(a: Option<int>, b: Option<int>): Option<int> {
    if a.None? then b else if b.None? then a else Some(Max(a.value, b.value))
  }

  function OffsetOf(m: Option<Message>): Option<int> {
    if m.None? then None else Some(m.value.offset)
  }

  lemma WatermarkAppend(ms: seq<Message>, m: Message)
    ensures Watermark(ms + [m]) == Join(Watermark(ms), Some(m.offset))
  {
  }

  lemma WatermarkStep(c: Config, l: Log, e: Event, w: Option<int>)
    requires Join(Watermark(l.commits), OffsetOf(l.state.lastSeen)) == w
    ensures var l' := Step(c, l, e);
            Join(Watermark(l'.commits), OffsetOf(l'.state.lastSeen))
            == if e.Request? then Join(w, Some(e.msg.offset)) else w
  {
  }

  lemma {:induction false} WatermarkCoupling(c: Config, start: int, es: seq<Event>)
    ensures var l := RunLog(c, start, es);
            Join(Watermark(l.commits), OffsetOf(l.state.lastSeen)) == Watermark(Requests(es))
  {
    if es != [] {
      var prev, e := es[..|es| - 1], es[|es| - 1];
      WatermarkCoupling(c, start, prev);
      WatermarkStep(c, RunLog(c, start, prev), e, Watermark(Requests(prev)));
      if e.Request? {
        WatermarkAppend(Requests(prev), e.msg);
      } else {
        assert Requests(es) == Requests(prev);
      }
    }
  }

  predicate AtMost(a: Option<int>, b: Option<int>) {
    a.None? || (b.Some? && a.value <= b.value)
  }

  /** Against the direct committer on the same requests: the buffered one never
      runs ahead, and its watermark is the same exactly when nothing pending is
      beyond what it has committed; in particular when nothing is pending. */
  lemma RefinesDirectCommitter(c: Config, start: int, es: seq<Event>)
    ensures var l := RunLog(c, start, es);
            && AtMost(Watermark(l.commits), Watermark(Requests(es)))
            && (Watermark(l.commits) == Watermark(Requests(es))
                <==> AtMost(OffsetOf(l.state.lastSeen), Watermark(l.commits)))
            && (l.state.observed == 0 && 1 <= c.batchSize ==> Watermark(l.commits) == Watermark(Requests(es)))
  {
    WatermarkCoupling(c, start, es);
    if 1 <= c.batchSize {
      BatchPartition(c, start, es);
    }
  }

  /** With CommitBatchSize = 1 and no hook the calls of commitFunc are those of the
      direct committer, and every request succeeds, whatever ticks come between. */
  lemma {:induction false} DegenerateBatch(c: Config, start: int, es: seq<Event>)
    requires c.batchSize <= 1 && !c.hook
    ensures var l := RunLog(c, start, es);
            && l.commits == Requests(es)
            && l.state.lastSeen.None?
            && |l.replies| == |Requests(es)|
            && forall i :: 0 <= i < |l.replies| ==> l.replies[i].Nil?
  {
    if es != [] {
      DegenerateBatch(c, start, es[..|es| - 1]);
    }
  }

  // ---- Order ----

  ghost predicate Nondecreasing(ms: seq<Message>) {
    forall i, j :: 0 <= i <= j < |ms| ==> ms[i].offset <= ms[j].offset
  }

  ghost predicate AllAtMost(ms: seq<Message>, offset: int) {
    forall i :: 0 <= i < |ms| ==> ms[i].offset <= offset
  }

  /** Everything committed is at or below everything pending. */
  ghost predicate OrderedLog(l: Log, requests: seq<Message>) {
    && Nondecreasing(l.commits)
    && (l.state.lastSeen.Some? ==> AllAtMost(l.commits, l.state.lastSeen.value.offset))
    && (forall b :: AllAtMost(requests, b) ==>
          AllAtMost(l.commits, b) && (l.state.lastSeen.Some? ==> l.state.lastSeen.value.offset <= b))
  }

  lemma OrderedStep(c: Config, l: Log, requests: seq<Message>, e: Event)
    requires OrderedLog(l, requests)
    requires e.Request? ==> AllAtMost(requests, e.msg.offset)
    ensures OrderedLog(Step(c, l, e), requests + if e.Request? then [e.msg] else [])
  {
    var requests' := requests + if e.Request? then [e.msg] else [];
    forall b | AllAtMost(requests', b) ensures AllAtMost(requests, b) && (e.Request? ==> e.msg.offset <= b) {
      assert forall i :: 0 <= i < |requests| ==> requests[i] == requests'[i];
      assert e.Request? ==> requests'[|requests|] == e.msg;
    }
  }

  /** Requests in offset order are committed in offset order. */
  lemma {:induction false} OrderedRequestsOrderedCommits(c: Config, start: int, es: seq<Event>)
    requires Nondecreasing(Requests(es))
    ensures OrderedLog(RunLog(c, start, es), Requests(es))
  {
    if es != [] {
      var prev, e := es[..|es| - 1], es[|es| - 1];
      var rs := Requests(es);
      assert forall i :: 0 <= i < |Requests(prev)| ==> Requests(prev)[i] == rs[i];
      OrderedRequestsOrderedCommits(c, start, prev);
      if e.Request? {
        assert rs[|rs| - 1] == e.msg;
      }
      OrderedStep(c, RunLog(c, start, prev), Requests(prev), e);
    }
  }

  lemma {:induction false} LastSeenWasRequested(c: Config, start: int, es: seq<Event>)
    ensures var last := RunLog(c, start, es).state.lastSeen; last.Some? ==> last.value in Requests(es)
  {
    if es != [] {
      LastSeenWasRequested(c, start, es[..|es| - 1]);
    }
  }
}
