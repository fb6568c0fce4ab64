/** How the recovery harness decides that training has stalled: it polls rank 0's log and waits until
    the (step, checkpoint) pair has been the same for a whole window. */
module Quiescence {
  import opened Options
  import opened TrainingLog

  /** One round of the polling loop: when the deadline was checked, whether the paused pod still runs,
      whether its worker is still stopped, what the log command returned (nothing if it failed), and
      when the clock was read. */
  datatype Poll = Poll(checkedAt: real, podRunning: bool, stopped: bool, output: Log, readAt: real)

  datatype Pair = Pair(step: nat, checkpoint: nat)

  datatype Failure = PodChanged | WorkerMoved | CheckpointRegressed | TimedOut

  datatype Outcome = Fence(pair: Pair) | Failed(failure: Failure)

  function Observed(log: Log): Option<Pair> {
    var step, checkpoint := LatestTrainingStep(log), LatestCheckpointStep(log);
    if step.None? || checkpoint.None? then None else Some(Pair(step.value, checkpoint.value))
  }

  /** The pair is made of the greatest step and the greatest checkpoint any line reports. */
  lemma ObservedExactly(log: Log, pair: Pair)
    ensures Observed(log) == Some(pair) <==>
      GreatestStep(log, Some(pair.step)) && GreatestCheckpoint(log, Some(pair.checkpoint))
  {
    ExtractorsFindMaxima(log);
  }

  /** Polls whose pair is `pair` or missing. */
  ghost predicate Unbroken(polls: seq<Poll>, a: nat, b: nat, pair: Pair)
    requires b <= |polls|
  {
    forall k :: a <= k < b ==> Observed(polls[k].output) in {None, Some(pair)}
  }

  /** Between polls `a` and `b` one pair was seen at both ends, no other in between, and the ends are a
      window apart. */
  ghost predicate StableRun(polls: seq<Poll>, a: nat, b: nat, window: real)
    requires a < b < |polls|
  {
    Observed(polls[a].output).Some? && Observed(polls[b].output) == Observed(polls[a].output) &&
    Unbroken(polls, a, b, Observed(polls[a].output).value) &&
    polls[b].readAt - polls[a].readAt >= window
  }

  /** A round that gives no reason to fail. */
  predicate Undisturbed(poll: Poll, minimum: nat) {
    poll.podRunning && poll.stopped &&
    (Observed(poll.output).Some? ==> Observed(poll.output).value.checkpoint >= minimum)
  }

  /** `last` is the pair seen last in the first `used` polls, `first` the poll that began its run, at
      `since`. */
  ghost predicate Tracks(polls: seq<Poll>, used: nat, last: Option<Pair>, first: nat, since: real)
    requires used <= |polls|
  {
    (last.None? ==> forall k :: 0 <= k < used ==> Observed(polls[k].output) == None) &&
    (last.Some? ==>
       first < used && Observed(polls[first].output) == last && since == polls[first].readAt &&
       Unbroken(polls, first, used, last.value)) &&
    forall a, pair ::
      (0 <= a < used && Observed(polls[a].output) == Some(pair) && Unbroken(polls, a, used, pair)) ==>
        (last == Some(pair) && first <= a)
  }

  /** No stable run among the first `n` polls. */
  ghost predicate NoneStable(polls: seq<Poll>, n: int, window: real)
    requires n <= |polls|
  {
    forall a, b :: 0 <= a < b < n ==> !StableRun(polls, a, b, window)
  }

  lemma UnbrokenBefore(polls: seq<Poll>, used: nat)
    requires used < |polls|
    ensures forall a: nat, pair :: a <= used && Unbroken(polls, a, used + 1, pair) ==>
      Unbroken(polls, a, used, pair) && Observed(polls[used].output) in {None, Some(pair)}
  {
    forall a: nat, pair | a <= used && Unbroken(polls, a, used + 1, pair)
      ensures Unbroken(polls, a, used, pair) && Observed(polls[used].output) in {None, Some(pair)}
    {
      assert a <= used < used + 1;
    }
  }

  /** A poll that saw no pair does not end a run. */
  lemma TracksBlank(polls: seq<Poll>, used: nat, last: Option<Pair>, first: nat, since: real, window: real)
    requires used < |polls| && Tracks(polls, used, last, first, since) && NoneStable(polls, used, window)
    requires Observed(polls[used].output).None?
    ensures Tracks(polls, used + 1, last, first, since) && NoneStable(polls, used + 1, window)
  {
    UnbrokenBefore(polls, used);
  }

  /** A poll that saw another pair begins a new run. */
  lemma TracksNew(polls: seq<Poll>, used: nat, last: Option<Pair>, first: nat, since: real, window: real)
    requires used < |polls| && Tracks(polls, used, last, first, since) && NoneStable(polls, used, window)
    requires Observed(polls[used].output).Some? && Observed(polls[used].output) != last
    ensures Tracks(polls, used + 1, Observed(polls[used].output), used, polls[used].readAt)
    ensures NoneStable(polls, used + 1, window)
  {
    UnbrokenBefore(polls, used);
  }

  /** A poll that saw the same pair again ends the wait exactly when the run is a window long. */
  lemma TracksSame(polls: seq<Poll>, used: nat, last: Option<Pair>, first: nat, since: real, window: real)
    requires used < |polls| && Tracks(polls, used, last, first, since) && NoneStable(polls, used, window)
    requires forall i, j :: 0 <= i < j < |polls| ==> polls[i].readAt <= polls[j].readAt
    requires Observed(polls[used].output).Some? && Observed(polls[used].output) == last
    ensures polls[used].readAt - since >= window ==> StableRun(polls, first, used, window)
    ensures polls[used].readAt - since < window ==>
      Tracks(polls, used + 1, last, first, since) && NoneStable(polls, used + 1, window)
  {
    UnbrokenBefore(polls, used);
  }

  ghost predicate AllUndisturbed(polls: seq<Poll>, n: int, minimum: nat)
    requires n <= |polls|
  {
    forall i :: 0 <= i < n ==> Undisturbed(polls[i], minimum)
  }

  /** The outcome after `used` rounds is the right one: no earlier round gave a reason to fail or completed
      a stable run, and the last one is what the outcome says. */
  ghost predicate Justified(polls: seq<Poll>, used: nat, first: nat, deadline: real, window: real, minimum: nat,
                            outcome: Outcome)
    requires used <= |polls|
  {
    NoneStable(polls, used - 1, window) && AllUndisturbed(polls, used - 1, minimum) &&
    match outcome
    case Fence(pair) =>
      first < used - 1 && StableRun(polls, first, used - 1, window) &&
      Observed(polls[used - 1].output) == Some(pair) && AllUndisturbed(polls, used, minimum)
    case Failed(PodChanged) => used > 0 && !polls[used - 1].podRunning
    case Failed(WorkerMoved) => used > 0 && polls[used - 1].podRunning && !polls[used - 1].stopped
    case Failed(CheckpointRegressed) =>
      used > 0 && polls[used - 1].podRunning && polls[used - 1].stopped &&
      Observed(polls[used - 1].output).Some? && Observed(polls[used - 1].output).value.checkpoint < minimum
    case Failed(TimedOut) =>
      used < |polls| && polls[used].checkedAt >= deadline && NoneStable(polls, used, window) &&
      AllUndisturbed(polls, used, minimum)
  }

  /** What one round of the closure does: raise, return a pair, or go on with these variables. */
  datatype Round = Raise(failure: Failure) | Return(pair: Pair) | GoOn(lastObservation: Option<Pair>, stableSince: real)

  ghost predicate RoundOk(poll: Poll, last: Option<Pair>, since: real, window: real, minimum: nat, round: Round) {
    var observation := Observed(poll.output);
    match round
    case Raise(PodChanged) => !poll.podRunning
    case Raise(WorkerMoved) => poll.podRunning && !poll.stopped
    case Raise(CheckpointRegressed) =>
      poll.podRunning && poll.stopped && observation.Some? && observation.value.checkpoint < minimum
    case Raise(TimedOut) => false
    case Return(pair) =>
      Undisturbed(poll, minimum) && observation == Some(pair) == last && poll.readAt - since >= window
    case GoOn(next, nextSince) =>
      Undisturbed(poll, minimum) &&
      if observation.None? then next == last && nextSince == since
      else if observation != last then next == observation && nextSince == poll.readAt
      else next == last && nextSince == since && poll.readAt - since < window
  }

  /** The closure `quiescent` of `_wait_for_quiescence`. */
  method Quiescent(poll: Poll, last: Option<Pair>, since: real, window: real, minimum: nat) returns (round: Round)
    ensures RoundOk(poll, last, since, window, minimum, round)
  {
    if !poll.podRunning {
      return Raise(PodChanged);
    }
    if !poll.stopped {
      return Raise(WorkerMoved);
    }
    var observation := Observed(poll.output);
    if observation.None? {
      return GoOn(last, since);
    }
    if observation.value.checkpoint < minimum {
      return Raise(CheckpointRegressed);
    }
    if observation != last {
      return GoOn(observation, poll.readAt);
    }
    if poll.readAt - since >= window {
      return Return(observation.value);
    }
    return GoOn(last, since);
  }

  /** Going on keeps track; `first` moves to this round when it saw another pair. */
  lemma GoingOnTracks(polls: seq<Poll>, used: nat, last: Option<Pair>, first: nat, since: real, window: real,
                      minimum: nat, next: Option<Pair>, nextSince: real)
    requires used < |polls| && Tracks(polls, used, last, first, since) && NoneStable(polls, used, window)
    requires forall i, j :: 0 <= i < j < |polls| ==> polls[i].readAt <= polls[j].readAt
    requires RoundOk(polls[used], last, since, window, minimum, GoOn(next, nextSince))
    ensures Tracks(polls, used + 1, next, if next != last then used else first, nextSince)
    ensures NoneStable(polls, used + 1, window)
  {
    var observation := Observed(polls[used].output);
    if observation.None? {
      TracksBlank(polls, used, last, first, since, window);
    } else if observation != last {
      TracksNew(polls, used, last, first, since, window);
    } else {
      TracksSame(polls, used, last, first, since, window);
    }
  }

  lemma ReturningIsStable(polls: seq<Poll>, used: nat, last: Option<Pair>, first: nat, since: real, window: real,
                          minimum: nat, pair: Pair)
    requires used < |polls| && Tracks(polls, used, last, first, since) && NoneStable(polls, used, window)
    requires forall i, j :: 0 <= i < j < |polls| ==> polls[i].readAt <= polls[j].readAt
    requires RoundOk(polls[used], last, since, window, minimum, Return(pair))
    ensures first < used && StableRun(polls, first, used, window)
  {
    TracksSame(polls, used, last, first, since, window);
  }

  /** `_wait_for_quiescence`: the closure inside `wait_for`. `polls` is what successive rounds would find;
      the deadline check of its last entry fails. `used` counts the rounds made. */
  method WaitForQuiescence(polls: seq<Poll>, start: real, timeout: real, window: real, minimum: nat)
      returns (outcome: Outcome, used: nat, ghost first: nat)
    requires |polls| > 0 && polls[|polls| - 1].checkedAt >= start + timeout
    requires forall i, j :: 0 <= i < j < |polls| ==> polls[i].readAt <= polls[j].readAt
    ensures used <= |polls| && forall i :: 0 <= i < used ==> polls[i].checkedAt < start + timeout
    ensures Justified(polls, used, first, start + timeout, window, minimum, outcome)
  {
    var lastObservation: Option<Pair> := None;
    var stableSince := start;
    used := 0;
    first := 0;
    while polls[used].checkedAt < start + timeout
      invariant 0 <= used < |polls|
      invariant forall i :: 0 <= i < used ==> polls[i].checkedAt < start + timeout
      invariant AllUndisturbed(polls, used, minimum)
      invariant Tracks(polls, used, lastObservation, first, stableSince)
      invariant NoneStable(polls, used, window)
      decreases |polls| - used
    {
      var round := Quiescent(polls[used], lastObservation, stableSince, window, minimum);
      used := used + 1;
      match round {
        case Raise(failure) =>
          return Failed(failure), used, first;
        case Return(pair) =>
          ReturningIsStable(polls, used - 1, lastObservation, first, stableSince, window, minimum, pair);
          return Fence(pair), used, first;
        case GoOn(next, nextSince) =>
          GoingOnTracks(polls, used - 1, lastObservation, first, stableSince, window, minimum, next, nextSince);
          first := if next != lastObservation then used - 1 else first;
          lastObservation, stableSince := next, nextSince;
      }
    }
    return Failed(TimedOut), used, first;
  }

  /** Rounds are at least `interval` apart, so their number is at most the timeout over the interval,
      rounded up: one fewer would still fit into the timeout. */
  lemma {:induction false} PollsAreBounded(polls: seq<Poll>, start: real, timeout: real, interval: real, used: nat)
    requires 0 < used <= |polls| && polls[0].checkedAt >= start
    requires forall i :: 0 < i < |polls| ==> polls[i].checkedAt >= polls[i - 1].checkedAt + interval
    requires forall i :: 0 <= i < used ==> polls[i].checkedAt < start + timeout
    ensures polls[used - 1].checkedAt >= start + (used - 1) as real * interval
    ensures (used - 1) as real * interval < timeout
  {
    if used > 1 {
      PollsAreBounded(polls, start, timeout, interval, used - 1);
      assert (used - 1) as real * interval == (used - 2) as real * interval + interval;
    }
  }

  /** The log as a function of time, to which lines are only ever appended. */
  ghost predicate AppendOnly(log: real -> Log) {
    forall t, u :: t <= u ==> log(t) <= log(u)
  }

  /** What a poll can see of `log`: all of it, or nothing when the command fails. */
  predicate Reads(poll: Poll, log: real -> Log) {
    poll.output == log(poll.readAt) || poll.output == []
  }

  predicate AtMost(a: Option<nat>, b: Option<nat>) {
    a.None? || (b.Some? && a.value <= b.value)
  }

  lemma {:induction false} MaximaGrow(log: Log, longer: Log)
    requires log <= longer
    ensures AtMost(LatestTrainingStep(log), LatestTrainingStep(longer))
    ensures AtMost(LatestCheckpointStep(log), LatestCheckpointStep(longer))
    decreases |longer|
  {
    if log != longer {
      assert log <= longer[..|longer| - 1];
      MaximaGrow(log, longer[..|longer| - 1]);
    } else {
    }
  }

  /** Quiescence by sandwiching: a stable run of polls shows that the pair was the log's at every
      moment between its ends, not only when somebody looked. */
  lemma StableRunMeansStable(polls: seq<Poll>, a: nat, b: nat, window: real, log: real -> Log, t: real)
    requires a < b < |polls| && StableRun(polls, a, b, window)
    requires AppendOnly(log) && Reads(polls[a], log) && Reads(polls[b], log)
    requires polls[a].readAt <= t <= polls[b].readAt
    ensures Observed(log(t)) == Observed(polls[a].output)
  {
    MaximaGrow(log(polls[a].readAt), log(t));
    MaximaGrow(log(t), log(polls[b].readAt));
  }

  /** So the pair returned by the harness was the log's throughout an interval at least a window long,
      even if the polls in between failed to read it. */
  lemma QuiescentInterval(polls: seq<Poll>, first: nat, used: nat, window: real, log: real -> Log, pair: Pair)
    requires first + 1 < used <= |polls| && StableRun(polls, first, used - 1, window)
    requires Observed(polls[used - 1].output) == Some(pair)
    requires AppendOnly(log) && forall i :: 0 <= i < |polls| ==> Reads(polls[i], log)
    ensures polls[used - 1].readAt - polls[first].readAt >= window
    ensures forall t :: polls[first].readAt <= t <= polls[used - 1].readAt ==> Observed(log(t)) == Some(pair)
  {
    forall t | polls[first].readAt <= t <= polls[used - 1].readAt
      ensures Observed(log(t)) == Some(pair)
    {
      StableRunMeansStable(polls, first, used - 1, window, log, t);
    }
  }
}
