/** Where every pass that goes through counts towards recovery: on evidence of the metric source, and
    wherever the cache never goes back behind a version it has returned. */
module RecoveryPasses {
  import opened Options
  import opened Strings
  import opened Health
  import opened HealthSources
  import opened Nodes
  import opened Reconciler
  import opened Cluster
  import opened ClusterInvariant
  import opened ClusterSteps
  import opened ClusterTheorems
  import opened BoundedRecovery

  /** As long as the node is owned, every pass of the run that goes through is effective. */
  ghost predicate EveryPassCounts(u: Setup, c: Cluster, actions: seq<Action>)
    requires Sound(c) && CanRun(u, c, actions)
    decreases |actions|
  {
    actions == [] ||
    ((IsManaged(Current(c).annotations) && Passed(u, c, actions[0]) ==> Effective(u, c, actions[0])) &&
     EveryPassCounts(u, Apply(u, c, actions[0]), actions[1..]))
  }

  lemma PassedStep(u: Setup, c: Cluster, actions: seq<Action>)
    requires Sound(c) && CanRun(u, c, actions) && actions != []
    ensures var rest := PassedTimes(u, Apply(u, c, actions[0]), actions[1..]);
      PassedTimes(u, c, actions) == if Passed(u, c, actions[0]) then [c.phase.now] + rest else rest
    ensures Effective(u, c, actions[0]) ==> Passed(u, c, actions[0])
  {
  }

  lemma {:induction false} EffectivePassed(u: Setup, c: Cluster, actions: seq<Action>)
    requires Sound(c) && CanRun(u, c, actions)
    ensures forall t :: t in EffectiveTimes(u, c, actions) ==> t in PassedTimes(u, c, actions)
    decreases |actions|
  {
    if actions != [] {
      TimesStep(u, c, actions);
      PassedStep(u, c, actions);
      EffectivePassed(u, Apply(u, c, actions[0]), actions[1..]);
    }
  }

  /** The first pass that goes through on an owned node is effective. */
  lemma {:induction false} FirstPassedIsEffective(u: Setup, c: Cluster, actions: seq<Action>)
    requires Sound(c) && CanRun(u, c, actions) && EveryPassCounts(u, c, actions)
    requires IsManaged(Current(c).annotations)
    ensures PassedTimes(u, c, actions) == [] <==> EffectiveTimes(u, c, actions) == []
    ensures PassedTimes(u, c, actions) != [] ==> PassedTimes(u, c, actions)[0] == EffectiveTimes(u, c, actions)[0]
    decreases |actions|
  {
    if actions != [] {
      TimesStep(u, c, actions);
      PassedStep(u, c, actions);
      if !Passed(u, c, actions[0]) {
        OthersKeepRecord(u, c, actions[0]);
        FirstPassedIsEffective(u, Apply(u, c, actions[0]), actions[1..]);
      }
    }
  }

  /** On a node that stays owned they all are. */
  lemma {:induction false} OwnedPassedAreEffective(u: Setup, c: Cluster, actions: seq<Action>)
    requires Sound(c) && CanRun(u, c, actions) && EveryPassCounts(u, c, actions) && AllHealthy(actions)
    requires IsManaged(Current(Run(u, c, actions)).annotations)
    ensures PassedTimes(u, c, actions) == EffectiveTimes(u, c, actions)
    decreases |actions|
  {
    if actions != [] {
      if !IsManaged(Current(c).annotations) {
        RunStaysFree(u, c, actions);
      }
      TimesStep(u, c, actions);
      PassedStep(u, c, actions);
      OwnedPassedAreEffective(u, Apply(u, c, actions[0]), actions[1..]);
    }
  }

  /** Bounded recovery counted in passes that go through: where they all count, an owned node that sees
      only healthy evidence is free exactly if one came a window after its recovery started. */
  lemma PassedFreeExactly(u: Setup, start: Cluster, before: seq<Action>, c: Cluster, later: seq<Action>,
                          times: seq<int>, s: int, d: Cluster)
    requires Reached(u, start, before, c) && IsManaged(Current(c).annotations)
    requires CanRun(u, c, later) && AllHealthy(later) && EveryPassCounts(u, c, later) && d == Run(u, c, later)
    requires times == PassedTimes(u, c, later) && s == StartBy(u, c, times)
    ensures times != [] ==> s <= times[0]
    ensures times != [] && IsManaged(Current(d).annotations) ==> RecoveringSince(u.tf, Current(d), s)
    ensures !IsManaged(Current(d).annotations) <==> Reaches(times, s + EffectiveWindow(u.window))
  {
    var effective, end := EffectiveTimes(u, c, later), s + EffectiveWindow(u.window);
    FirstPassedIsEffective(u, c, later);
    FreeExactly(u, start, before, c, later, effective, s, d);
    if IsManaged(Current(d).annotations) {
      OwnedPassedAreEffective(u, c, later);
    } else {
      EffectivePassed(u, c, later);
      var k :| 0 <= k < |effective| && effective[k] >= end;
      assert effective[k] in times;
    }
  }

  /** So if passes that go through are at least `gap` apart, `ceil(window / gap)` of them after the first
      free the node. */
  lemma PassedFreeWithinWindow(u: Setup, start: Cluster, before: seq<Action>, c: Cluster, later: seq<Action>,
                               times: seq<int>, gap: nat, d: Cluster)
    requires Reached(u, start, before, c) && IsManaged(Current(c).annotations)
    requires CanRun(u, c, later) && AllHealthy(later) && EveryPassCounts(u, c, later) && d == Run(u, c, later)
    requires times == PassedTimes(u, c, later) && gap > 0 && Apart(times, gap)
    requires |times| > Ceiling(EffectiveWindow(u.window), gap)
    ensures !IsManaged(Current(d).annotations)
    ensures u.guarded ==> !HasDegraded(Current(d).taints)
  {
    var s := StartBy(u, c, times);
    PassedFreeExactly(u, start, before, c, later, times, s, d);
    LongEnough(times, gap, s, EffectiveWindow(u.window));
    if u.guarded {
      ReachedInTime(u, start, before, c);
      OwnedTaintGoes(u, c, later, d);
    }
  }

  // Metric evidence.

  predicate AllMetric(actions: seq<Action>) {
    forall a :: a in actions && a.Write? ==> FromMetrics(a.observation, a.read)
  }

  /** The recorded time of the evidence, if there is one, is earlier than `limit`. */
  ghost predicate StampPast(tf: TimeFormat, n: NodeView, limit: int) {
    HealthObservedAt in n.annotations ==>
      exists t: int :: t < limit && Read(n.annotations, HealthObservedAt) == tf.format(t)
  }

  ghost predicate StampsPast(u: Setup, c: Cluster) {
    forall v :: 0 <= v < |c.history| ==>
      StampPast(u.tf, c.history[v], if c.phase.Fetched? then c.phase.now else c.clock + 1)
  }

  /** A pass on metric evidence always changes the Node it read, however old that copy is. */
  lemma MetricsAreAlwaysWritten(tf: TimeFormat, n: NodeView, o: Observation, now: int, read: int, window: int)
    requires RoundTrips(tf) && StampPast(tf, n, now) && now < read && FromMetrics(o, read)
    ensures NextNode(tf, n, o, now, window) != n
  {
    var next, stamp := NextNode(tf, n, o, now, window), Stamped(o, now).observedAt;
    assert Read(next.annotations, HealthObservedAt) == tf.format(stamp) by { NextNodeReads(tf, n, o, now, window); }
    assert tf.format(stamp) != "" by { assert ReadTime(tf, tf.format(stamp)) == Some(stamp) && TrimSpace("") == ""; }
    forall t: int | t < now
      ensures tf.format(t) != tf.format(stamp)
    {
      if tf.format(t) == tf.format(stamp) {
        FormatIsInjective(tf, t, stamp);
      }
    }
  }

  lemma MetricWriteKeepsStamps(u: Setup, c: Cluster, p: PassRecord, read: int)
    requires c.phase.Fetched? && c.phase.now == p.now && StampsPast(u, c) && FromMetrics(p.observation, read)
    requires p.now < read && p.after == NextNode(u.tf, p.before, p.observation, p.now, u.window)
    ensures StampsPast(u, Recorded(c, p, read))
  {
    var d, stamp := Recorded(c, p, read), Stamped(p.observation, p.now).observedAt;
    NextNodeReads(u.tf, p.before, p.observation, p.now, u.window);
    assert StampPast(u.tf, p.after, read + 1) by { assert stamp < read + 1; }
    forall v | 0 <= v < |d.history|
      ensures StampPast(u.tf, d.history[v], read + 1)
    {
      assert v < |c.history| ==> StampPast(u.tf, c.history[v], c.phase.now);
    }
  }

  lemma StepKeepsStamps(u: Setup, c: Cluster, a: Action)
    requires Inv(u, c) && StampsPast(u, c) && Enabled(u, c, a) && (a.Write? ==> FromMetrics(a.observation, a.read))
    ensures StampsPast(u, Apply(u, c, a))
  {
    if a.Write? {
      MetricWriteKeepsStamps(u, c, RecordOf(u, c, a.observation, a.refused), a.read);
    } else {
      var d := Apply(u, c, a);
      assert HealthObservedAt in OWN_KEYS;
      forall v | 0 <= v < |d.history|
        ensures StampPast(u.tf, d.history[v], if d.phase.Fetched? then d.phase.now else d.clock + 1)
      {
        var w := if v < |c.history| then v else |c.history| - 1;
        assert StampPast(u.tf, c.history[w], if c.phase.Fetched? then c.phase.now else c.clock + 1);
      }
    }
  }

  /** On metric evidence every pass that goes through has written, so it has read the current version. */
  lemma MetricPassCounts(u: Setup, c: Cluster, a: Action)
    requires Inv(u, c) && StampsPast(u, c) && Enabled(u, c, a) && (a.Write? ==> FromMetrics(a.observation, a.read))
    requires Passed(u, c, a)
    ensures Effective(u, c, a)
  {
    var n, now := c.history[c.phase.version], c.phase.now;
    assert NextNode(u.tf, n, a.observation, now, u.window) != n by {
      assert StampPast(u.tf, n, now);
      assert now < a.read;
      MetricsAreAlwaysWritten(u.tf, n, a.observation, now, a.read, u.window);
    }
    PassedWants(u, c, a, n);
    SeenIsEffective(u, c, a, n);
  }

  lemma {:induction false} MetricRunCounts(u: Setup, c: Cluster, actions: seq<Action>)
    requires Inv(u, c) && StampsPast(u, c) && CanRun(u, c, actions) && AllMetric(actions)
    ensures EveryPassCounts(u, c, actions) && StampsPast(u, Run(u, c, actions))
    decreases |actions|
  {
    if actions != [] {
      var a := actions[0];
      assert a in actions;
      if Passed(u, c, a) {
        MetricPassCounts(u, c, a);
      }
      StepKeepsStamps(u, c, a);
      ActionKeeps(u, c, a);
      MetricRunCounts(u, Apply(u, c, a), actions[1..]);
    }
  }

  /** In every run on metric evidence all passes that go through count, however stale the cache is. */
  lemma MetricPassesCount(u: Setup, start: Cluster, before: seq<Action>, c: Cluster, later: seq<Action>)
    requires Reached(u, start, before, c) && CanRun(u, c, later) && AllMetric(before) && AllMetric(later)
    ensures EveryPassCounts(u, c, later)
  {
    InitOk(u, start);
    assert HealthObservedAt in OWN_KEYS;
    MetricRunCounts(u, start, before);
    ReachedIsOk(u, start, before, c);
    MetricRunCounts(u, c, later);
  }

  // Reads that never go back.

  /** No `Get` returns a version older than `last` or than one returned before. */
  predicate Forward(actions: seq<Action>, last: nat) {
    actions == [] ||
    if actions[0].Get? then actions[0].version >= last && Forward(actions[1..], actions[0].version)
    else Forward(actions[1..], last)
  }

  function LastRead(actions: seq<Action>, last: nat): nat {
    if actions == [] then last
    else LastRead(actions[1..], if actions[0].Get? then actions[0].version else last)
  }

  /** That is: no `Get` is behind `last`, and none behind an earlier one. */
  lemma {:induction false} ForwardExactly(actions: seq<Action>, last: nat)
    ensures Forward(actions, last) <==>
      (forall i :: 0 <= i < |actions| && actions[i].Get? ==> actions[i].version >= last) &&
      forall i, j :: 0 <= i < j < |actions| && actions[i].Get? && actions[j].Get? ==>
        actions[i].version <= actions[j].version
    decreases |actions|
  {
    if actions != [] {
      var rest := actions[1..];
      ForwardExactly(rest, if actions[0].Get? then actions[0].version else last);
      assert forall i :: 0 < i < |actions| ==> actions[i] == rest[i - 1];
    }
  }

  /** And `LastRead` is where a run that goes on has to take up. */
  lemma {:induction false} ForwardInTwo(actions: seq<Action>, more: seq<Action>, last: nat)
    ensures Forward(actions + more, last) <==> Forward(actions, last) && Forward(more, LastRead(actions, last))
    decreases |actions|
  {
    if actions == [] {
      assert actions + more == more;
    } else {
      assert (actions + more)[1..] == actions[1..] + more;
      ForwardInTwo(actions[1..], more, if actions[0].Get? then actions[0].version else last);
    }
  }

  /** Every pass observes what the annotation source answers from the copy it has read. */
  ghost predicate AllFromAnnotations(u: Setup, c: Cluster, actions: seq<Action>)
    requires Sound(c) && CanRun(u, c, actions)
    decreases |actions|
  {
    actions == [] ||
    (FromAnnotations(u, c, actions[0]) && AllFromAnnotations(u, Apply(u, c, actions[0]), actions[1..]))
  }

  ghost predicate FromAnnotations(u: Setup, c: Cluster, a: Action)
    requires Sound(c) && Enabled(u, c, a)
  {
    a.Write? ==>
      a.observation == ObserveAnnotations(u.tf, c.history[c.phase.version].annotations, a.read)
  }

  /** The record of `current` is what some pass on `n` left. */
  ghost predicate MovedBy(u: Setup, n: NodeView, current: NodeView, o: Observation, now: int, read: int) {
    FromSource(o, read) && SameRecord(NextNode(u.tf, n, o, now, u.window), current)
  }

  /** `o` agrees with what the annotation source says of `n`, if that is the source. */
  predicate Answers(u: Setup, n: NodeView, o: Observation, annotated: bool) {
    annotated ==> o.state == ObserveAnnotations(u.tf, n.annotations, 0).state
  }

  lemma AnswerFits(u: Setup, c: Cluster, a: Action, n: NodeView, annotated: bool)
    requires Sound(c) && Enabled(u, c, a) && a.Write? && n == c.history[c.phase.version]
    requires annotated ==> FromAnnotations(u, c, a)
    ensures Answers(u, n, a.observation, annotated)
  {
  }

  ghost predicate Moved(u: Setup, n: NodeView, current: NodeView, annotated: bool) {
    exists o, now, read :: MovedBy(u, n, current, o, now, read) && Answers(u, n, o, annotated)
  }

  /** Versions after `last` carry the record of the newest one, and `last` does too, or it is the one the
      record was moved from. */
  ghost predicate Behind(u: Setup, history: seq<NodeView>, last: nat, annotated: bool) {
    last < |history| &&
    var current := history[|history| - 1];
    (forall v :: last < v < |history| ==> SameRecord(history[v], current)) &&
    (SameRecord(history[last], current) || Moved(u, history[last], current, annotated))
  }

  lemma NewerIsBehind(u: Setup, history: seq<NodeView>, last: nat, version: nat, annotated: bool)
    requires Behind(u, history, last, annotated) && last <= version < |history|
    ensures Behind(u, history, version, annotated)
  {
  }

  /** A new version with the same record. */
  lemma SameKeepsBehind(u: Setup, history: seq<NodeView>, view: NodeView, last: nat, annotated: bool)
    requires Behind(u, history, last, annotated) && SameRecord(history[|history| - 1], view)
    ensures Behind(u, history + [view], last, annotated)
  {
    var n, current := history[last], history[|history| - 1];
    if !SameRecord(n, current) {
      var o, now, read :| MovedBy(u, n, current, o, now, read) && Answers(u, n, o, annotated);
      assert MovedBy(u, n, view, o, now, read);
    }
  }

  /** A new version written by a pass on the newest one. */
  lemma WriteKeepsBehind(u: Setup, history: seq<NodeView>, n: NodeView, o: Observation, now: int, read: int,
                         annotated: bool, next: NodeView)
    requires history != [] && n == history[|history| - 1] && FromSource(o, read) && Answers(u, n, o, annotated)
    requires next == NextNode(u.tf, n, o, now, u.window)
    ensures Behind(u, history + [next], |history| - 1, annotated)
  {
    assert Moved(u, n, next, annotated) by { assert MovedBy(u, n, next, o, now, read); }
    JustMoved(u, history, next, annotated);
  }

  lemma JustMoved(u: Setup, history: seq<NodeView>, next: NodeView, annotated: bool)
    requires history != [] && Moved(u, history[|history| - 1], next, annotated)
    ensures Behind(u, history + [next], |history| - 1, annotated)
  {
  }

  /** The cache has last returned version `last`. */
  ghost predicate Following(u: Setup, c: Cluster, last: nat, annotated: bool) {
    Behind(u, c.history, last, annotated) && (c.phase.Fetched? ==> c.phase.version == last)
  }

  lemma RecordedKeepsBehind(u: Setup, c: Cluster, p: PassRecord, read: int, last: nat, annotated: bool)
    requires c.history != [] && Behind(u, c.history, last, annotated)
    requires p.ok && p.after != p.before ==> Behind(u, c.history + [p.after], last, annotated)
    ensures Following(u, Recorded(c, p, read), last, annotated)
  {
  }

  /** What the pass that writes now has read and wants. */
  lemma RecordHas(u: Setup, c: Cluster, o: Observation, refused: bool, p: PassRecord)
    requires Sound(c) && c.phase.Fetched? && p == RecordOf(u, c, o, refused)
    ensures p.before == c.history[c.phase.version] && p.now == c.phase.now && p.observation == o
    ensures p.after == NextNode(u.tf, p.before, o, p.now, u.window)
    ensures p.ok && p.after != p.before ==> c.phase.version + 1 == |c.history|
  {
  }

  lemma WriteKeepsFollowing(u: Setup, c: Cluster, a: Action, last: nat, annotated: bool)
    requires Sound(c) && Enabled(u, c, a) && a.Write? && Following(u, c, last, annotated)
    requires annotated ==> FromAnnotations(u, c, a)
    ensures Following(u, Apply(u, c, a), last, annotated)
  {
    var p, n := RecordOf(u, c, a.observation, a.refused), c.history[last];
    assert Answers(u, n, a.observation, annotated) by { AnswerFits(u, c, a, n, annotated); }
    assert p.before == n && p.observation == a.observation && (p.ok && p.after != n ==> last == |c.history| - 1) &&
           p.after == NextNode(u.tf, n, p.observation, p.now, u.window) by {
      RecordHas(u, c, a.observation, a.refused, p);
    }
    assert p.ok && p.after != n ==> Behind(u, c.history + [p.after], last, annotated) by {
      WrittenIsBehind(u, c.history, p, a.read, annotated);
    }
    RecordedKeepsBehind(u, c, p, a.read, last, annotated);
  }

  lemma WrittenIsBehind(u: Setup, history: seq<NodeView>, p: PassRecord, read: int, annotated: bool)
    requires history != [] && FromSource(p.observation, read) && Answers(u, p.before, p.observation, annotated)
    requires p.after == NextNode(u.tf, p.before, p.observation, p.now, u.window)
    ensures p.before == history[|history| - 1] ==> Behind(u, history + [p.after], |history| - 1, annotated)
  {
    if p.before == history[|history| - 1] {
      WriteKeepsBehind(u, history, p.before, p.observation, p.now, read, annotated, p.after);
    }
  }

  lemma StepKeepsFollowing(u: Setup, c: Cluster, a: Action, last: nat, annotated: bool)
    requires Sound(c) && Enabled(u, c, a) && Following(u, c, last, annotated)
    requires a.Get? ==> a.version >= last
    requires annotated ==> FromAnnotations(u, c, a)
    ensures Following(u, Apply(u, c, a), if a.Get? then a.version else last, annotated)
  {
    match a
    case Get(version, now) => NewerIsBehind(u, c.history, last, version, annotated);
    case Write(o, read, refused) => WriteKeepsFollowing(u, c, a, last, annotated);
    case Edit(view) =>
      OthersKeepRecord(u, c, a);
      SameKeepsBehind(u, c.history, view, last, annotated);
    case _ =>
  }

  lemma {:induction false} RunKeepsFollowing(u: Setup, c: Cluster, actions: seq<Action>, last: nat, annotated: bool)
    requires Sound(c) && CanRun(u, c, actions) && Following(u, c, last, annotated) && Forward(actions, last)
    requires annotated ==> AllFromAnnotations(u, c, actions)
    ensures Following(u, Run(u, c, actions), LastRead(actions, last), annotated)
    decreases |actions|
  {
    if actions != [] {
      var a := actions[0];
      StepKeepsFollowing(u, c, a, last, annotated);
      RunKeepsFollowing(u, Apply(u, c, a), actions[1..], if a.Get? then a.version else last, annotated);
    }
  }

  /** A healthy pass on a version from which another healthy pass moved the record to a recovering one
      wants to change it, unless the record is still the same. */
  lemma MovedIsNotIdle(u: Setup, n: NodeView, current: NodeView, o: Observation, t: int, read: int, good: Observation,
                       now: int)
    requires RoundTrips(u.tf) && MovedBy(u, n, current, o, t, read) && o.state == Healthy && good.state == Healthy
    requires IsManaged(current.annotations) && NextNode(u.tf, n, good, now, u.window) == n
    ensures SameRecord(n, current)
  {
    var next := NextNode(u.tf, n, o, t, u.window);
    TaintsOfNext(u.tf, n, o, t, u.window);
    var recorded := AnnotationTime(u.tf, n.annotations, RecoveryStartedAt);
    if ParseState(Read(n.annotations, HealthState)) != Recovering || recorded.None? {
      StartsRecovering(u.tf, n, good, now, u.window);
    } else {
      RecordedStartStays(u, n, good, now);
      RecordedStartStays(u, n, o, t);
    }
  }

  /** A recovering node that a healthy pass leaves owned reads the same state and start afterwards. */
  lemma RecordedStartStays(u: Setup, n: NodeView, o: Observation, now: int)
    requires RoundTrips(u.tf) && o.state == Healthy && IsManaged(n.annotations)
    requires ParseState(Read(n.annotations, HealthState)) == Recovering
    requires AnnotationTime(u.tf, n.annotations, RecoveryStartedAt).Some?
    requires IsManaged(NextNode(u.tf, n, o, now, u.window).annotations)
    ensures var b := NextNode(u.tf, n, o, now, u.window);
      Read(b.annotations, HealthState) == Text(Recovering) &&
      Read(b.annotations, RecoveryStartedAt) ==
        u.tf.format(AnnotationTime(u.tf, n.annotations, RecoveryStartedAt).value)
  {
    NextNodeReads(u.tf, n, o, now, u.window);
  }

  predicate IsRecovering(tf: TimeFormat, n: NodeView) {
    ParseState(Read(n.annotations, HealthState)) == Recovering &&
    AnnotationTime(tf, n.annotations, RecoveryStartedAt).Some?
  }

  /** Only healthy evidence makes a node recovering. */
  lemma MovedToRecovering(u: Setup, n: NodeView, current: NodeView, o: Observation, t: int, read: int)
    requires MovedBy(u, n, current, o, t, read) && ParseState(Read(current.annotations, HealthState)) == Recovering
    ensures o.state == Healthy
  {
    var d := Decide(u.tf, n, Stamped(o, t), t, u.window);
    NextNodeReads(u.tf, n, o, t, u.window);
    StateRoundTrip(d.state);
    RecoveryStart(u.tf, n, o, t, read, u.window);
  }

  /** Healthy evidence that leaves the last version read as it is has seen the stored record. */
  lemma IdleSeesRecord(u: Setup, n: NodeView, current: NodeView, good: Observation, now: int, annotated: bool)
    requires RoundTrips(u.tf) && (SameRecord(n, current) || Moved(u, n, current, annotated))
    requires good.state == Healthy && NextNode(u.tf, n, good, now, u.window) == n && IsManaged(current.annotations)
    requires if annotated then Answers(u, n, good, true) else IsRecovering(u.tf, current)
    ensures SameRecord(n, current)
  {
    if !SameRecord(n, current) {
      var o, t, read :| MovedBy(u, n, current, o, t, read) && Answers(u, n, o, annotated);
      if !annotated {
        MovedToRecovering(u, n, current, o, t, read);
      }
      MovedIsNotIdle(u, n, current, o, t, read, good, now);
      assert false;
    }
  }

  /** A pass that goes through on healthy evidence counts, if reads do not go back: on a recovering node
      whatever the source, and on any owned node for the annotation source. */
  lemma ForwardPassCounts(u: Setup, c: Cluster, a: Action, n: NodeView, annotated: bool)
    requires RoundTrips(u.tf) && Sound(c) && Enabled(u, c, a) && Passed(u, c, a) && n == c.history[c.phase.version]
    requires a.observation.state == Healthy && IsManaged(Current(c).annotations)
    requires SameRecord(n, Current(c)) || Moved(u, n, Current(c), annotated)
    requires if annotated then Answers(u, n, a.observation, true) else IsRecovering(u.tf, Current(c))
    ensures Effective(u, c, a)
  {
    assert SameRecord(n, Current(c)) by {
      PassedWants(u, c, a, n);
      PassedCases(u, n, Current(c), a.observation, c.phase.now, annotated);
    }
    SeenIsEffective(u, c, a, n);
  }

  lemma SeenIsEffective(u: Setup, c: Cluster, a: Action, n: NodeView)
    requires Sound(c) && Enabled(u, c, a) && Passed(u, c, a) && n == c.history[c.phase.version]
    requires SameRecord(n, Current(c))
    ensures Effective(u, c, a)
  {
  }

  lemma PassedWants(u: Setup, c: Cluster, a: Action, n: NodeView)
    requires Sound(c) && Enabled(u, c, a) && Passed(u, c, a) && n == c.history[c.phase.version]
    ensures NextNode(u.tf, n, a.observation, c.phase.now, u.window) == n || n == Current(c)
  {
  }

  lemma PassedCases(u: Setup, n: NodeView, current: NodeView, good: Observation, now: int, annotated: bool)
    requires RoundTrips(u.tf) && good.state == Healthy && IsManaged(current.annotations)
    requires NextNode(u.tf, n, good, now, u.window) == n || n == current
    requires SameRecord(n, current) || Moved(u, n, current, annotated)
    requires if annotated then Answers(u, n, good, true) else IsRecovering(u.tf, current)
    ensures SameRecord(n, current)
  {
    if n != current {
      IdleSeesRecord(u, n, current, good, now, annotated);
    }
  }

  /** On healthy evidence a recovering node stays recovering or becomes free. */
  lemma RecoveringStep(u: Setup, c: Cluster, a: Action)
    requires RoundTrips(u.tf) && Sound(c) && Enabled(u, c, a) && (a.Write? ==> a.observation.state == Healthy)
    requires IsManaged(Current(c).annotations) ==> IsRecovering(u.tf, Current(c))
    ensures IsManaged(Current(Apply(u, c, a)).annotations) ==> IsRecovering(u.tf, Current(Apply(u, c, a)))
  {
    if !IsManaged(Current(c).annotations) {
      FreeStaysFree(u, c, a);
    } else if Effective(u, c, a) {
      EffectiveRecovers(u, c, a, AnnotationTime(u.tf, Current(c).annotations, RecoveryStartedAt).value);
    } else {
      OthersKeepRecord(u, c, a);
    }
  }

  /** The node is recovering, as far as it is owned; for the annotation source that is not needed. */
  ghost predicate Counting(u: Setup, c: Cluster, annotated: bool)
    requires Sound(c)
  {
    annotated || (IsManaged(Current(c).annotations) ==> IsRecovering(u.tf, Current(c)))
  }

  lemma ForwardStepCounts(u: Setup, c: Cluster, a: Action, n: NodeView, annotated: bool)
    requires RoundTrips(u.tf) && Sound(c) && Enabled(u, c, a) && (a.Write? ==> a.observation.state == Healthy)
    requires a.Write? ==> n == c.history[c.phase.version]
    requires (SameRecord(n, Current(c)) || Moved(u, n, Current(c), annotated)) && Counting(u, c, annotated)
    requires annotated ==> FromAnnotations(u, c, a)
    ensures IsManaged(Current(c).annotations) && Passed(u, c, a) ==> Effective(u, c, a)
  {
    if Passed(u, c, a) && IsManaged(Current(c).annotations) {
      assert Answers(u, n, a.observation, annotated) by { AnswerFits(u, c, a, n, annotated); }
      ForwardPassCounts(u, c, a, n, annotated);
    }
  }

  lemma LastIsBehind(u: Setup, history: seq<NodeView>, last: nat, annotated: bool)
    requires Behind(u, history, last, annotated)
    ensures SameRecord(history[last], history[|history| - 1]) ||
            Moved(u, history[last], history[|history| - 1], annotated)
  {
  }

  lemma FollowingStepCounts(u: Setup, c: Cluster, a: Action, last: nat, annotated: bool)
    requires RoundTrips(u.tf) && Sound(c) && Enabled(u, c, a) && (a.Write? ==> a.observation.state == Healthy)
    requires Following(u, c, last, annotated) && Counting(u, c, annotated)
    requires annotated ==> FromAnnotations(u, c, a)
    ensures IsManaged(Current(c).annotations) && Passed(u, c, a) ==> Effective(u, c, a)
  {
    if a.Write? {
      ReadIsBehind(u, c, last, annotated);
      ForwardStepCounts(u, c, a, c.history[c.phase.version], annotated);
    }
  }

  lemma ReadIsBehind(u: Setup, c: Cluster, last: nat, annotated: bool)
    requires Sound(c) && c.phase.Fetched? && Following(u, c, last, annotated)
    ensures SameRecord(c.history[c.phase.version], Current(c)) ||
            Moved(u, c.history[c.phase.version], Current(c), annotated)
  {
    LastIsBehind(u, c.history, c.phase.version, annotated);
  }

  lemma StepKeepsCounting(u: Setup, c: Cluster, a: Action, annotated: bool)
    requires RoundTrips(u.tf) && Sound(c) && Enabled(u, c, a) && (a.Write? ==> a.observation.state == Healthy)
    requires Counting(u, c, annotated)
    ensures Sound(Apply(u, c, a)) && Counting(u, Apply(u, c, a), annotated)
  {
    ApplyIsSound(u, c, a);
    if !annotated {
      RecoveringStep(u, c, a);
    }
  }

  lemma {:induction false} ForwardRunCounts(u: Setup, c: Cluster, actions: seq<Action>, last: nat, annotated: bool)
    requires RoundTrips(u.tf) && Sound(c) && CanRun(u, c, actions) && AllHealthy(actions)
    requires Following(u, c, last, annotated) && Forward(actions, last) && Counting(u, c, annotated)
    requires annotated ==> AllFromAnnotations(u, c, actions)
    ensures EveryPassCounts(u, c, actions)
    decreases |actions|
  {
    if actions != [] {
      var a := actions[0];
      assert a in actions;
      FollowingStepCounts(u, c, a, last, annotated);
      StepKeepsFollowing(u, c, a, last, annotated);
      StepKeepsCounting(u, c, a, annotated);
      ForwardRunCounts(u, Apply(u, c, a), actions[1..], if a.Get? then a.version else last, annotated);
    }
  }

  /** In every run in which the cache never goes back, all passes that go through count, once the node is
      recovering; however far the cache lags. */
  lemma ForwardPassesCount(u: Setup, start: Cluster, before: seq<Action>, c: Cluster, later: seq<Action>)
    requires Reached(u, start, before, c) && CanRun(u, c, later) && AllHealthy(later)
    requires Forward(before, 0) && Forward(later, LastRead(before, 0))
    requires IsManaged(Current(c).annotations) ==> IsRecovering(u.tf, Current(c))
    ensures EveryPassCounts(u, c, later)
  {
    RunKeepsFollowing(u, start, before, 0, false);
    ForwardRunCounts(u, c, later, LastRead(before, 0), false);
  }

  /** For the annotation source the node only has to be owned. */
  lemma AnnotatedPassesCount(u: Setup, start: Cluster, before: seq<Action>, c: Cluster, later: seq<Action>)
    requires Reached(u, start, before, c) && CanRun(u, c, later) && AllHealthy(later)
    requires Forward(before, 0) && Forward(later, LastRead(before, 0))
    requires AllFromAnnotations(u, start, before) && AllFromAnnotations(u, c, later)
    ensures EveryPassCounts(u, c, later)
  {
    RunKeepsFollowing(u, start, before, 0, true);
    ForwardRunCounts(u, c, later, LastRead(before, 0), true);
  }

  /** Bounded recovery on metric evidence: passes that go through, at least `gap` apart, free the node
      within `ceil(window / gap)` of them after the first, however stale the cache is. */
  lemma FreeOnMetrics(u: Setup, start: Cluster, before: seq<Action>, c: Cluster, later: seq<Action>,
                      times: seq<int>, gap: nat, d: Cluster)
    requires Reached(u, start, before, c) && IsManaged(Current(c).annotations)
    requires CanRun(u, c, later) && AllHealthy(later) && d == Run(u, c, later)
    requires AllMetric(before) && AllMetric(later)
    requires times == PassedTimes(u, c, later) && gap > 0 && Apart(times, gap)
    requires |times| > Ceiling(EffectiveWindow(u.window), gap)
    ensures !IsManaged(Current(d).annotations)
    ensures u.guarded ==> !HasDegraded(Current(d).taints)
  {
    MetricPassesCount(u, start, before, c, later);
    PassedFreeWithinWindow(u, start, before, c, later, times, gap, d);
  }

  /** The same for reads that never go back: from a recovering node for any evidence, from any owned node
      for the annotation source. */
  lemma FreeOnForwardReads(u: Setup, start: Cluster, before: seq<Action>, c: Cluster, later: seq<Action>,
                           times: seq<int>, gap: nat, d: Cluster)
    requires Reached(u, start, before, c) && IsManaged(Current(c).annotations)
    requires CanRun(u, c, later) && AllHealthy(later) && d == Run(u, c, later)
    requires Forward(before, 0) && Forward(later, LastRead(before, 0))
    requires IsRecovering(u.tf, Current(c)) ||
             (AllFromAnnotations(u, start, before) && AllFromAnnotations(u, c, later))
    requires times == PassedTimes(u, c, later) && gap > 0 && Apart(times, gap)
    requires |times| > Ceiling(EffectiveWindow(u.window), gap)
    ensures !IsManaged(Current(d).annotations)
    ensures u.guarded ==> !HasDegraded(Current(d).taints)
  {
    assert EveryPassCounts(u, c, later) by {
      if IsRecovering(u.tf, Current(c)) {
        ForwardPassesCount(u, start, before, c, later);
      } else {
        AnnotatedPassesCount(u, start, before, c, later);
      }
    }
    PassedFreeWithinWindow(u, start, before, c, later, times, gap, d);
  }
}
