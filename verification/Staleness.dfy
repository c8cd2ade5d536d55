/** How long a request can stay uncommitted when the timer works as intended. */
module Staleness {
  import opened Types
  import opened Committer

  function TimeOf(e: Event): int {
    match e
    case Request(_, _, now) => now
    case Tick(at, _, _) => at
  }

  function Clock(start: int, es: seq<Event>): int {
    if es == [] then start else TimeOf(es[|es| - 1])
  }

  /** When the next tick of a ticker made at `start` fires. */
  function NextTick(interval: int, start: int, es: seq<Event>): int {
    if es == [] then start + interval
    else NextTick(interval, start, es[..|es| - 1]) + if es[|es| - 1].Tick? then interval else 0
  }

  /** Ticks are exactly one interval apart and none is dropped or late, the clock
      never goes back, a commit takes no time and no hook fails. */
  ghost predicate WellTimed(interval: int, start: int, es: seq<Event>) {
    es == [] ||
    var prev, e := es[..|es| - 1], es[|es| - 1];
    && WellTimed(interval, start, prev)
    && e.hook.Nil?
    && Clock(start, prev) <= TimeOf(e) <= NextTick(interval, start, prev)
    && (e.Tick? ==> e.at == e.now == NextTick(interval, start, prev))
  }

  /** How many commits there were before event i. */
  function CommitsBefore(c: Config, start: int, es: seq<Event>, i: nat): nat
    requires i <= |es|
  {
    |RunLog(c, start, es[..i]).commits|
  }

  /** Event i is a request and nothing has been committed since. */
  ghost predicate Uncovered(c: Config, start: int, es: seq<Event>, i: nat)
    requires i < |es|
  {
    es[i].Request? && |RunLog(c, start, es).commits| == CommitsBefore(c, start, es, i)
  }

  lemma {:induction false} CommitsGrow(c: Config, start: int, es: seq<Event>, i: nat)
    requires i <= |es|
    ensures RunLog(c, start, es[..i]).commits <= RunLog(c, start, es).commits
  {
    if i == |es| {
      assert es[..i] == es;
    } else {
      var prev := es[..|es| - 1];
      assert prev[..i] == es[..i];
      CommitsGrow(c, start, prev, i);
    }
  }

  /** The first commit after a request is at or beyond the offset of the request. */
  lemma {:induction false} CoveredByNextCommit(c: Config, start: int, es: seq<Event>, i: nat)
    requires i < |es| && es[i].Request?
    ensures var l, n := RunLog(c, start, es), CommitsBefore(c, start, es, i);
            if |l.commits| == n then l.state.lastSeen.Some? && es[i].msg.offset <= l.state.lastSeen.value.offset
            else n < |l.commits| && es[i].msg.offset <= l.commits[n].offset
  {
    var prev := es[..|es| - 1];
    assert i < |prev| ==> prev[..i] == es[..i];
    if i == |prev| {
      assert prev == es[..i];
    } else {
      CoveredByNextCommit(c, start, prev, i);
    }
  }

  ghost predicate Fresh(c: Config, start: int, es: seq<Event>) {
    var s, next := RunLog(c, start, es).state, NextTick(c.interval, start, es);
    && s.lastCommit <= Clock(start, es)
    && next - c.interval <= Clock(start, es) <= next
    && forall i: nat :: i < |es| && Uncovered(c, start, es, i)
         ==> s.lastCommit <= es[i].now && next - 2 * c.interval < es[i].now
  }

  lemma {:induction false} StaysFresh(c: Config, start: int, es: seq<Event>)
    requires 0 < c.interval && WellTimed(c.interval, start, es)
    ensures Fresh(c, start, es)
  {
    if es != [] {
      var prev, e := es[..|es| - 1], es[|es| - 1];
      StaysFresh(c, start, prev);
      forall i: nat | i < |es| && Uncovered(c, start, es, i)
        ensures RunLog(c, start, es).state.lastCommit <= es[i].now
        ensures NextTick(c.interval, start, es) - 2 * c.interval < es[i].now
      {
        if i == |prev| {
          assert prev == es[..i];
        } else {
          assert prev[..i] == es[..i];
          CommitsGrow(c, start, prev, i);
          CommitsGrow(c, start, es, |prev|);
          assert Uncovered(c, start, prev, i);
          CoveredByNextCommit(c, start, prev, i);
        }
      }
    }
  }

  /** Staleness: at any time `end` up to the next tick, a request accepted at least
      two intervals ago has been covered by a later commit. */
  lemma StalenessBound(c: Config, start: int, es: seq<Event>, i: nat, end: int)
    requires 0 < c.interval && WellTimed(c.interval, start, es)
    requires i < |es| && es[i].Request?
    requires Clock(start, es) <= end <= NextTick(c.interval, start, es)
    requires es[i].now + 2 * c.interval <= end
    ensures var commits, n := RunLog(c, start, es).commits, CommitsBefore(c, start, es, i);
            n < |commits| && es[i].msg.offset <= commits[n].offset
  {
    StaysFresh(c, start, es);
    assert !Uncovered(c, start, es, i);
    CoveredByNextCommit(c, start, es, i);
  }

  lemma TimedAppend(c: Config, start: int, es: seq<Event>, e: Event)
    ensures WellTimed(c.interval, start, es + [e])
            <==> && WellTimed(c.interval, start, es) && e.hook.Nil?
                 && Clock(start, es) <= TimeOf(e) <= NextTick(c.interval, start, es)
                 && (e.Tick? ==> e.at == e.now == NextTick(c.interval, start, es))
    ensures NextTick(c.interval, start, es + [e])
            == NextTick(c.interval, start, es) + if e.Tick? then c.interval else 0
    ensures Clock(start, es + [e]) == TimeOf(e)
    ensures RunLog(c, start, es + [e]) == Step(c, RunLog(c, start, es), e)
  {
  }

  /** The bound cannot be improved: for every interval there is a well-timed run in
      which a request is still uncommitted two intervals less one unit later. */
  lemma StalenessBoundIsTight(interval: int) returns (c: Config, es: seq<Event>)
    requires 1 <= interval
    ensures c.interval == interval && WellTimed(interval, 0, es)
    ensures |es| == 4 && es[2].Request? && Uncovered(c, 0, es, 2)
    ensures es[2].now + 2 * interval - 1 == NextTick(interval, 0, es)
  {
    c := Config(2, interval, false);
    var r, t := Request(Message("m", 0), Nil, 1), Tick(interval, Nil, interval);
    TimedAppend(c, 0, [], r);
    TimedAppend(c, 0, [r], r);
    TimedAppend(c, 0, [r] + [r], r);
    TimedAppend(c, 0, [r] + [r] + [r], t);
    es := [r] + [r] + [r] + [t];
    assert [] + [r] == [r] && es[..2] == [r] + [r];
  }

  /** The clock reading of the last event that committed, or the start. */
  function LastCommitAt(c: Config, start: int, es: seq<Event>): int {
    if es == [] then start
    else
      var prev := es[..|es| - 1];
      if |RunLog(c, start, prev).commits| < |RunLog(c, start, es).commits| then es[|es| - 1].now
      else LastCommitAt(c, start, prev)
  }

  /** For every run, timed well or not: a tick commits exactly when something is
      pending, the hook does not refuse, and the previous successful commit is at
      least one interval old. */
  lemma {:induction false} TimerSpacing(c: Config, start: int, es: seq<Event>)
    ensures RunLog(c, start, es).state.lastCommit == LastCommitAt(c, start, es)
    ensures forall at, hook, now ::
              |RunLog(c, start, es).commits| < |RunLog(c, start, es + [Tick(at, hook, now)]).commits|
              <==> at - LastCommitAt(c, start, es) >= c.interval
                   && RunLog(c, start, es).state.lastSeen.Some? && !(c.hook && !hook.Nil?)
  {
    if es != [] {
      TimerSpacing(c, start, es[..|es| - 1]);
    }
    forall at, hook, now
      ensures RunLog(c, start, es + [Tick(at, hook, now)]) == Step(c, RunLog(c, start, es), Tick(at, hook, now))
    {
      RunLogAppend(c, start, es, Tick(at, hook, now));
    }
  }
}
