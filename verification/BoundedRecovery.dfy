/** How soon an owned node that only looks healthy is free again, over the runs of the cluster. */
module BoundedRecovery {
  import opened Options
  import opened Health
  import opened Nodes
  import opened Reconciler
  import opened Cluster
  import opened ClusterInvariant
  import opened ClusterSteps
  import opened ClusterTheorems

  /** Two versions of the Node with the same recovery record. */
  predicate SameRecord(a: NodeView, b: NodeView) {
    IsManaged(a.annotations) == IsManaged(b.annotations) &&
    Read(a.annotations, HealthState) == Read(b.annotations, HealthState) &&
    Read(a.annotations, RecoveryStartedAt) == Read(b.annotations, RecoveryStartedAt)
  }

  /** A pass that goes through and has read a version that carries the record of the stored Node. A pass
      on a stale version with another record can go through as well, if it has nothing to write. */
  ghost predicate Effective(u: Setup, c: Cluster, a: Action)
    requires Sound(c) && Enabled(u, c, a)
  {
    a.Write? &&
    var p := RecordOf(u, c, a.observation, a.refused);
    p.ok && SameRecord(p.before, Current(c))
  }

  /** When the effective passes of a run read the clock. */
  ghost function EffectiveTimes(u: Setup, c: Cluster, actions: seq<Action>): seq<int>
    requires Sound(c) && CanRun(u, c, actions)
    decreases |actions|
  {
    if actions == [] then []
    else
      (if Effective(u, c, actions[0]) then [c.phase.now] else []) +
      EffectiveTimes(u, Apply(u, c, actions[0]), actions[1..])
  }

  /** A pass that goes through, whatever it has read. */
  ghost predicate Passed(u: Setup, c: Cluster, a: Action)
    requires Sound(c) && Enabled(u, c, a)
  {
    a.Write? && RecordOf(u, c, a.observation, a.refused).ok
  }

  ghost function PassedTimes(u: Setup, c: Cluster, actions: seq<Action>): seq<int>
    requires Sound(c) && CanRun(u, c, actions)
    decreases |actions|
  {
    if actions == [] then []
    else
      (if Passed(u, c, actions[0]) then [c.phase.now] else []) +
      PassedTimes(u, Apply(u, c, actions[0]), actions[1..])
  }

  predicate AllHealthy(actions: seq<Action>) {
    forall a :: a in actions && a.Write? ==> a.observation.state == Healthy
  }

  /** A pass on the current version that the API takes is effective. */
  lemma FreshPassIsEffective(u: Setup, c: Cluster, o: Observation, read: int)
    requires Sound(c) && Enabled(u, c, Write(o, read, false)) && c.phase.version + 1 == |c.history|
    ensures Effective(u, c, Write(o, read, false))
  {
  }

  /** Nothing but an effective pass moves the record. */
  lemma OthersKeepRecord(u: Setup, c: Cluster, a: Action)
    requires Sound(c) && Enabled(u, c, a) && !Effective(u, c, a)
    ensures SameRecord(Current(c), Current(Apply(u, c, a)))
  {
    if a.Write? {
      OtherWritesKeepNode(u, c, a.observation, a.refused, a.read);
    } else if a.Edit? {
      assert HealthState in OWN_KEYS && RecoveryStartedAt in OWN_KEYS && Managed in OWN_KEYS;
    }
  }

  lemma OtherWritesKeepNode(u: Setup, c: Cluster, o: Observation, refused: bool, read: int)
    requires Sound(c) && c.phase.Fetched?
    requires var p := RecordOf(u, c, o, refused); !(p.ok && SameRecord(p.before, Current(c)))
    ensures Current(Recorded(c, RecordOf(u, c, o, refused), read)) == Current(c)
  {
    RecordedTaint(c, RecordOf(u, c, o, refused), read);
  }

  lemma SameRecovery(tf: TimeFormat, a: NodeView, b: NodeView, s: int)
    requires SameRecord(a, b)
    ensures RecoveringSince(tf, a, s) <==> RecoveringSince(tf, b, s)
  {
  }

  /** What an effective pass leaves: the Node it wants, or the stored one with the same record. */
  lemma EffectiveLeaves(u: Setup, c: Cluster, a: Action, next: NodeView)
    requires Sound(c) && Enabled(u, c, a) && Effective(u, c, a)
    requires next == RecordOf(u, c, a.observation, a.refused).after
    ensures SameRecord(Current(Apply(u, c, a)), next)
  {
    var p := RecordOf(u, c, a.observation, a.refused);
    RecordedTaint(c, p, a.read);
  }

  /** Inside the window an effective pass on healthy evidence leaves the recovery start where it is; at
      the end of the window it frees the node. */
  lemma EffectiveRecovers(u: Setup, c: Cluster, a: Action, s: int)
    requires RoundTrips(u.tf) && Sound(c) && Enabled(u, c, a) && Effective(u, c, a)
    requires a.observation.state == Healthy && RecoveringSince(u.tf, Current(c), s)
    ensures var n := Current(Apply(u, c, a));
      if c.phase.now >= s + EffectiveWindow(u.window) then !IsManaged(n.annotations)
      else RecoveringSince(u.tf, n, s)
  {
    var p := RecordOf(u, c, a.observation, a.refused);
    var t := Current(Apply(u, c, a));
    SameRecovery(u.tf, p.before, Current(c), s);
    assert SameRecord(t, p.after) by { EffectiveLeaves(u, c, a, p.after); }
    if p.now >= s + EffectiveWindow(u.window) {
      Releases(u.tf, p.before, a.observation, s, p.now, u.window);
    } else {
      KeepsRecovering(u.tf, p.before, a.observation, s, p.now, u.window);
      SameRecovery(u.tf, t, p.after, s);
    }
  }

  /** When the recovery of an owned node starts, as seen by an effective pass at `now`. */
  function StartOf(tf: TimeFormat, n: NodeView, now: int): int {
    var recorded := AnnotationTime(tf, n.annotations, RecoveryStartedAt);
    if ParseState(Read(n.annotations, HealthState)) == Recovering && recorded.Some? then recorded.value else now
  }

  /** The first effective pass on an owned node that is not recovering starts its recovery. */
  lemma EffectiveStarts(u: Setup, c: Cluster, a: Action)
    requires RoundTrips(u.tf) && Sound(c) && Enabled(u, c, a) && Effective(u, c, a)
    requires a.observation.state == Healthy && IsManaged(Current(c).annotations)
    requires ParseState(Read(Current(c).annotations, HealthState)) != Recovering ||
             AnnotationTime(u.tf, Current(c).annotations, RecoveryStartedAt).None?
    ensures RecoveringSince(u.tf, Current(Apply(u, c, a)), c.phase.now)
  {
    var p := RecordOf(u, c, a.observation, a.refused);
    var t := Current(Apply(u, c, a));
    StartsRecovering(u.tf, p.before, a.observation, p.now, u.window);
    assert SameRecord(t, p.after) by { EffectiveLeaves(u, c, a, p.after); }
    SameRecovery(u.tf, t, p.after, p.now);
  }

  /** Healthy evidence never claims a free node. */
  lemma FreeStaysFree(u: Setup, c: Cluster, a: Action)
    requires Sound(c) && Enabled(u, c, a) && (a.Write? ==> a.observation.state == Healthy)
    requires !IsManaged(Current(c).annotations)
    ensures !IsManaged(Current(Apply(u, c, a)).annotations)
  {
    if Effective(u, c, a) {
      var p := RecordOf(u, c, a.observation, a.refused);
      TaintsOfNext(u.tf, p.before, a.observation, p.now, u.window);
      EffectiveLeaves(u, c, a, p.after);
    } else {
      OthersKeepRecord(u, c, a);
    }
  }

  lemma {:induction false} RunStaysFree(u: Setup, c: Cluster, actions: seq<Action>)
    requires Sound(c) && CanRun(u, c, actions) && AllHealthy(actions) && !IsManaged(Current(c).annotations)
    ensures !IsManaged(Current(Run(u, c, actions)).annotations)
    decreases |actions|
  {
    if actions != [] {
      assert actions[0] in actions;
      FreeStaysFree(u, c, actions[0]);
      RunStaysFree(u, Apply(u, c, actions[0]), actions[1..]);
    }
  }

  /** Some of these times is at or after `end`. */
  ghost predicate Reaches(times: seq<int>, end: int) {
    exists k :: 0 <= k < |times| && times[k] >= end
  }

  lemma ReachesStep(first: seq<int>, rest: seq<int>, end: int)
    ensures Reaches(first + rest, end) <==> Reaches(first, end) || Reaches(rest, end)
  {
    var times := first + rest;
    if k :| 0 <= k < |first| && first[k] >= end {
      assert times[k] >= end;
    }
    if k :| 0 <= k < |rest| && rest[k] >= end {
      assert times[|first| + k] >= end;
    }
    if k :| 0 <= k < |times| && times[k] >= end {
      assert if k < |first| then first[k] >= end else rest[k - |first|] >= end;
    }
  }

  /** The start never moves, and the node is free at the end of a run on healthy evidence exactly if an
      effective pass of the run came at or after start + window. Failed writes and stale passes do not
      matter, and neither does what others edit. */
  lemma {:induction false} RunRecovers(u: Setup, c: Cluster, actions: seq<Action>, s: int)
    requires RoundTrips(u.tf) && Sound(c) && CanRun(u, c, actions) && AllHealthy(actions)
    requires RecoveringSince(u.tf, Current(c), s)
    ensures var n := Current(Run(u, c, actions));
      if Reaches(EffectiveTimes(u, c, actions), s + EffectiveWindow(u.window)) then !IsManaged(n.annotations)
      else RecoveringSince(u.tf, n, s)
    decreases |actions|
  {
    if actions != [] {
      var a, rest, end := actions[0], actions[1..], s + EffectiveWindow(u.window);
      var t := Apply(u, c, a);
      assert a in actions;
      var first := if Effective(u, c, a) then [c.phase.now] else [];
      ReachesStep(first, EffectiveTimes(u, t, rest), end);
      if Effective(u, c, a) {
        EffectiveRecovers(u, c, a, s);
        assert Reaches(first, end) <==> c.phase.now >= end by { assert first[0] == c.phase.now; }
      } else {
        OthersKeepRecord(u, c, a);
        SameRecovery(u.tf, Current(c), Current(t), s);
      }
      if RecoveringSince(u.tf, Current(t), s) {
        RunRecovers(u, t, rest, s);
      } else {
        RunStaysFree(u, t, rest);
      }
    }
  }

  lemma TimesStep(u: Setup, c: Cluster, actions: seq<Action>)
    requires Sound(c) && CanRun(u, c, actions) && actions != []
    ensures var rest := EffectiveTimes(u, Apply(u, c, actions[0]), actions[1..]);
      EffectiveTimes(u, c, actions) == if Effective(u, c, actions[0]) then [c.phase.now] + rest else rest
  {
  }

  lemma SameStart(tf: TimeFormat, a: NodeView, b: NodeView, now: int)
    requires SameRecord(a, b)
    ensures StartOf(tf, a, now) == StartOf(tf, b, now)
  {
  }

  /** What `StartOf` says at the end of a run with these effective times. */
  ghost predicate RecoveredBy(u: Setup, c: Cluster, times: seq<int>, d: Cluster)
    requires c.history != [] && d.history != [] && times != []
  {
    var s := StartOf(u.tf, Current(c), times[0]);
    if Reaches(times, s + EffectiveWindow(u.window)) then !IsManaged(Current(d).annotations)
    else RecoveringSince(u.tf, Current(d), s)
  }

  /** The start that effective passes at these times see. */
  function StartBy(u: Setup, c: Cluster, times: seq<int>): int
    requires c.history != []
  {
    if times == [] then c.clock else StartOf(u.tf, Current(c), times[0])
  }

  /** Without an effective pass the record stays as it is. */
  lemma {:induction false} QuietRunKeepsRecord(u: Setup, c: Cluster, actions: seq<Action>)
    requires Sound(c) && CanRun(u, c, actions) && EffectiveTimes(u, c, actions) == []
    ensures SameRecord(Current(Run(u, c, actions)), Current(c))
    decreases |actions|
  {
    if actions != [] {
      TimesStep(u, c, actions);
      OthersKeepRecord(u, c, actions[0]);
      QuietRunKeepsRecord(u, Apply(u, c, actions[0]), actions[1..]);
    }
  }

  lemma StartedRunRecovers(u: Setup, c: Cluster, actions: seq<Action>)
    requires RoundTrips(u.tf) && Sound(c) && CanRun(u, c, actions) && AllHealthy(actions) && actions != []
    requires Effective(u, c, actions[0]) && IsManaged(Current(c).annotations)
    requires ParseState(Read(Current(c).annotations, HealthState)) != Recovering ||
             AnnotationTime(u.tf, Current(c).annotations, RecoveryStartedAt).None?
    ensures EffectiveTimes(u, c, actions) != []
    ensures RecoveredBy(u, c, EffectiveTimes(u, c, actions), Run(u, c, actions))
  {
    var t, s := Apply(u, c, actions[0]), c.phase.now;
    var times := EffectiveTimes(u, t, actions[1..]);
    assert actions[0] in actions;
    TimesStep(u, c, actions);
    EffectiveStarts(u, c, actions[0]);
    RunRecovers(u, t, actions[1..], s);
    ReachesStep([s], times, s + EffectiveWindow(u.window));
    assert !Reaches([s], s + EffectiveWindow(u.window));
  }

  /** The same from an owned node in any state: the first effective pass fixes the start. */
  lemma {:induction false} OwnedRunRecovers(u: Setup, c: Cluster, actions: seq<Action>)
    requires RoundTrips(u.tf) && Sound(c) && CanRun(u, c, actions) && AllHealthy(actions)
    requires IsManaged(Current(c).annotations) && EffectiveTimes(u, c, actions) != []
    ensures RecoveredBy(u, c, EffectiveTimes(u, c, actions), Run(u, c, actions))
    decreases |actions|
  {
    var recorded := AnnotationTime(u.tf, Current(c).annotations, RecoveryStartedAt);
    if ParseState(Read(Current(c).annotations, HealthState)) == Recovering && recorded.Some? {
      RunRecovers(u, c, actions, recorded.value);
    } else if Effective(u, c, actions[0]) {
      StartedRunRecovers(u, c, actions);
    } else {
      var t := Apply(u, c, actions[0]);
      TimesStep(u, c, actions);
      OthersKeepRecord(u, c, actions[0]);
      SameStart(u.tf, Current(c), Current(t), EffectiveTimes(u, c, actions)[0]);
      OwnedRunRecovers(u, t, actions[1..]);
    }
  }

  // Times.

  /** All passes so far read the clock before now. */
  ghost predicate PassTimesOk(c: Cluster) {
    (forall p :: p in c.passes ==> p.now <= c.clock) && (c.phase.Fetched? ==> c.phase.now <= c.clock)
  }

  lemma PassTimesStep(u: Setup, c: Cluster, a: Action)
    requires Sound(c) && Enabled(u, c, a) && PassTimesOk(c)
    ensures PassTimesOk(Apply(u, c, a))
  {
  }

  lemma {:induction false} PassTimesKept(u: Setup, c: Cluster, actions: seq<Action>)
    requires Sound(c) && CanRun(u, c, actions) && PassTimesOk(c)
    ensures PassTimesOk(Run(u, c, actions))
    decreases |actions|
  {
    if actions != [] {
      PassTimesStep(u, c, actions[0]);
      PassTimesKept(u, Apply(u, c, actions[0]), actions[1..]);
    }
  }

  /** The effective passes of a run come after everything recorded before it. */
  lemma {:induction false} TimesAreLater(u: Setup, c: Cluster, actions: seq<Action>, bound: int)
    requires Sound(c) && CanRun(u, c, actions)
    requires if c.phase.Fetched? then bound <= c.phase.now <= c.clock else bound <= c.clock
    ensures forall t :: t in EffectiveTimes(u, c, actions) ==> bound <= t
    decreases |actions|
  {
    if actions != [] {
      TimesStep(u, c, actions);
      TimesAreLater(u, Apply(u, c, actions[0]), actions[1..], bound);
    }
  }

  /** In a reachable state a recorded start is a time of an earlier pass. */
  lemma StartIsPast(u: Setup, c: Cluster, now: int)
    requires Inv(u, c) && PassTimesOk(c) && c.clock <= now
    ensures StartOf(u.tf, Current(c), now) <= now
  {
    var n := Current(c);
    if AnnotationTime(u.tf, n.annotations, RecoveryStartedAt).Some? {
      StartWasRecorded(u, n);
      var j: nat, t0: int :|
        Read(n.annotations, RecoveryStartedAt) == u.tf.format(t0) && HealthySince(c.passes, j, t0);
      assert ReadTime(u.tf, u.tf.format(t0)) == Some(t0);
      assert c.passes[j] in c.passes;
    }
  }

  /** Successive times are at least `d` apart. */
  predicate Apart(times: seq<int>, d: nat) {
    forall i :: 0 < i < |times| ==> times[i - 1] + d <= times[i]
  }

  lemma {:induction false} ApartGrows(times: seq<int>, d: nat, k: nat)
    requires Apart(times, d) && k < |times|
    ensures times[0] + k * d <= times[k]
  {
    if k > 0 {
      ApartGrows(times, d, k - 1);
      assert k * d == (k - 1) * d + d;
    }
  }

  /** `ceil(w / d)`. */
  function Ceiling(w: nat, d: nat): (q: nat)
    requires d > 0
    ensures q * d >= w
    ensures w > 0 ==> (q - 1) * d < w
  {
    assert w + d - 1 == ((w + d - 1) / d) * d + (w + d - 1) % d;
    (w + d - 1) / d
  }

  lemma LongEnough(times: seq<int>, d: nat, s: int, w: nat)
    requires d > 0 && Apart(times, d) && |times| > Ceiling(w, d) && s <= times[0]
    ensures Reaches(times, s + w)
  {
    var bound := Ceiling(w, d);
    ApartGrows(times, d, bound);
    assert times[bound] >= s + w;
  }

  lemma ReachedInTime(u: Setup, start: Cluster, before: seq<Action>, c: Cluster)
    requires Reached(u, start, before, c)
    ensures Inv(u, c) && PassTimesOk(c)
  {
    ReachedIsOk(u, start, before, c);
    PassTimesKept(u, start, before);
  }

  lemma StartsInTime(u: Setup, c: Cluster, later: seq<Action>, times: seq<int>)
    requires Inv(u, c) && PassTimesOk(c) && CanRun(u, c, later)
    requires times == EffectiveTimes(u, c, later) && times != []
    ensures StartOf(u.tf, Current(c), times[0]) <= times[0]
  {
    TimesAreLater(u, c, later, c.clock);
    assert times[0] in times;
    StartIsPast(u, c, times[0]);
  }

  /** Bounded recovery, over every run: an owned node that sees only healthy evidence is free exactly if
      an effective pass came a window after its recovery started, whatever fails or is stale in between,
      and for every configured window; until then the recorded start stays where it was. */
  lemma FreeExactly(u: Setup, start: Cluster, before: seq<Action>, c: Cluster, later: seq<Action>,
                    times: seq<int>, s: int, d: Cluster)
    requires Reached(u, start, before, c) && IsManaged(Current(c).annotations)
    requires CanRun(u, c, later) && AllHealthy(later) && d == Run(u, c, later)
    requires times == EffectiveTimes(u, c, later) && s == StartBy(u, c, times)
    ensures times == [] ==> SameRecord(Current(d), Current(c))
    ensures times != [] ==> s <= times[0]
    ensures times != [] && IsManaged(Current(d).annotations) ==> RecoveringSince(u.tf, Current(d), s)
    ensures !IsManaged(Current(d).annotations) <==> Reaches(times, s + EffectiveWindow(u.window))
  {
    ReachedInTime(u, start, before, c);
    if times == [] {
      QuietRunKeepsRecord(u, c, later);
    } else {
      StartsInTime(u, c, later, times);
      OwnedRunRecovers(u, c, later);
      assert RecoveredBy(u, c, times, d);
    }
  }

  /** So if effective passes are at least `gap` apart, the node is free within `ceil(window / gap)` of
      them after the first. */
  lemma FreeWithinWindow(u: Setup, start: Cluster, before: seq<Action>, c: Cluster, later: seq<Action>,
                         times: seq<int>, gap: nat, d: Cluster)
    requires Reached(u, start, before, c) && IsManaged(Current(c).annotations)
    requires CanRun(u, c, later) && AllHealthy(later) && d == Run(u, c, later)
    requires times == EffectiveTimes(u, c, later) && gap > 0 && Apart(times, gap)
    requires |times| > Ceiling(EffectiveWindow(u.window), gap)
    ensures !IsManaged(Current(d).annotations)
    ensures u.guarded ==> !HasDegraded(Current(d).taints)
  {
    var s := StartBy(u, c, times);
    FreeExactly(u, start, before, c, later, times, s, d);
    LongEnough(times, gap, s, EffectiveWindow(u.window));
    if u.guarded {
      ReachedInTime(u, start, before, c);
      OwnedTaintGoes(u, c, later, d);
    }
  }

  /** If others leave the taint alone, a node that was owned and is free carries no taint. */
  lemma OwnedTaintGoes(u: Setup, c: Cluster, later: seq<Action>, d: Cluster)
    requires Inv(u, c) && IsManaged(Current(c).annotations) && CanRun(u, c, later) && d == Run(u, c, later)
    requires !IsManaged(Current(d).annotations) && u.guarded
    ensures !HasDegraded(Current(d).taints)
  {
    RunKeeps(u, c, later);
    VersionsStay(u, c, later);
    assert OwnershipOk(u, c) && OwnershipOk(u, d);
  }

  /** The exact guard: on a node that has been recovering for a window, a pass that goes through on healthy
      evidence frees the node if and only if it has read a version with the current record. */
  lemma LatePassFreesExactly(u: Setup, c: Cluster, o: Observation, read: int, refused: bool, s: int)
    requires Inv(u, c) && Enabled(u, c, Write(o, read, refused)) && o.state == Healthy
    requires RecoveringSince(u.tf, Current(c), s) && c.phase.now >= s + EffectiveWindow(u.window)
    requires RecordOf(u, c, o, refused).ok
    ensures !IsManaged(Current(Apply(u, c, Write(o, read, refused))).annotations) <==>
      SameRecord(RecordOf(u, c, o, refused).before, Current(c))
  {
    var a := Write(o, read, refused);
    if Effective(u, c, a) {
      EffectiveRecovers(u, c, a, s);
    } else {
      OthersKeepRecord(u, c, a);
    }
  }
}
