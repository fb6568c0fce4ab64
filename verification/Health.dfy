/** Health states, observations, and the isolation policy that turns an observation into a decision.
    Times are nanoseconds since the Unix epoch. */
module Health {
  import opened Options

  /** A state is any string; `Other` stands for those that are none of the four. */
  datatype State = Healthy | Degraded | Recovering | Unknown | Other(text: string)

  function Text(s: State): string {
    match s
    case Healthy => "healthy"
    case Degraded => "degraded"
    case Recovering => "recovering"
    case Unknown => "unknown"
    case Other(text) => text
  }

  /** `ParseState`: missing or unrecognized persisted state is unknown. */
  function ParseState(value: string): State {
    if value == "healthy" then Healthy
    else if value == "degraded" then Degraded
    else if value == "recovering" then Recovering
    else Unknown
  }

  /** A persisted decision is read back as written. */
  lemma StateRoundTrip(s: State)
    requires !s.Other?
    ensures ParseState(Text(s)) == s
    ensures Text(s) != ""
  {
    assert |"healthy"| == 7 && |"degraded"| == 8 && |"recovering"| == 10 && |"unknown"| == 7;
    assert "unknown"[0] != "healthy"[0];
  }

  datatype Observation = Observation(
    state: State,
    source: string,
    reason: string,
    device: string,
    observedAt: int
  )

  /** What either health source can return when it reads the clock at `read`: never "recovering", and
      bad or missing evidence always carries the reading itself. */
  predicate FromSource(o: Observation, read: int) {
    o.state in {Healthy, Degraded, Unknown} && (o.state != Healthy ==> o.observedAt == read)
  }

  /** What the metric source returns when it reads the clock at `read`: every observation carries the
      reading itself. */
  predicate FromMetrics(o: Observation, read: int) {
    FromSource(o, read) && o.observedAt == read
  }

  /** Go's zero time, the first instant of year one. */
  const ZERO_TIME: int := -62_135_596_800_000_000_000

  const DEFAULT_RECOVERY_WINDOW: int := 20_000_000_000

  datatype Decision = Decision(state: State, isolate: bool, recoveryStartedAt: Option<int>)

  function ContinueRecovery(recoveryStartedAt: Option<int>, now: int): Decision {
    Decision(Recovering, true, Some(if recoveryStartedAt.Some? then recoveryStartedAt.value else now))
  }

  function DecideRecovery(previous: State, isolated: bool, recoveryStartedAt: Option<int>, now: int,
                          recoveryWindow: int): Decision {
    if !isolated then Decision(Healthy, false, None)
    else if previous == Recovering && recoveryStartedAt.Some? then
      if now >= recoveryStartedAt.value + recoveryWindow then Decision(Healthy, false, None)
      else Decision(Recovering, true, recoveryStartedAt)
    else ContinueRecovery(None, now)
  }

  function DecideIsolation(previous: State, isolated: bool, recoveryStartedAt: Option<int>,
                           observation: Observation, now: int, recoveryWindow: int): Decision {
    match observation.state
    case Degraded => Decision(Degraded, true, None)
    case Unknown => Decision(Unknown, isolated, None)
    case Recovering => ContinueRecovery(recoveryStartedAt, now)
    case Healthy => DecideRecovery(previous, isolated, recoveryStartedAt, now, recoveryWindow)
    case Other(text) => Decision(Unknown, isolated, None)
  }

  /** Isolation is given up only for one reason, and taken up only for two. */
  lemma ReleaseExactly(previous: State, isolated: bool, started: Option<int>, observation: Observation,
                       now: int, window: int)
    ensures var d := DecideIsolation(previous, isolated, started, observation, now, window);
      (isolated && !d.isolate <==>
        isolated && observation.state == Healthy && previous == Recovering && started.Some? &&
        started.value + window <= now) &&
      (!isolated && d.isolate <==> !isolated && observation.state in {Degraded, Recovering}) &&
      (d.recoveryStartedAt.Some? <==> d.state == Recovering) &&
      (d.state == Recovering ==> d.isolate)
  {
  }

  /** The state that is recorded, and since when the node recovers. */
  lemma StateExactly(previous: State, isolated: bool, started: Option<int>, observation: Observation,
                     now: int, window: int)
    ensures var d := DecideIsolation(previous, isolated, started, observation, now, window);
      (d.state == Degraded <==> observation.state == Degraded) &&
      (d.state == Unknown <==> observation.state == Unknown || observation.state.Other?) &&
      (d.state == Healthy <==> observation.state == Healthy && !d.isolate) &&
      (d.state == Recovering ==>
         d.recoveryStartedAt == Some(
           if started.Some? && (observation.state == Recovering || previous == Recovering) then started.value else now))
  {
  }
}
