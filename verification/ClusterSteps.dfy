/** Every step of the cluster machine keeps the invariant. */
module ClusterSteps {
  import opened Options
  import opened Health
  import opened Nodes
  import opened Pods
  import opened Reconciler
  import opened Cluster
  import opened ClusterInvariant

  lemma FormatIsInjective(tf: TimeFormat, t: int, s: int)
    requires RoundTrips(tf) && tf.format(t) == tf.format(s)
    ensures t == s
  {
    assert ReadTime(tf, tf.format(t)) == Some(t) && ReadTime(tf, tf.format(s)) == Some(s);
  }

  /** With a clock that only moves forward, a pass on bad or missing evidence always changes the Node it
      read, however old that copy is. */
  lemma BadEvidenceIsAlwaysWritten(tf: TimeFormat, n: NodeView, o: Observation, now: int, read: int, window: int)
    requires RoundTrips(tf) && StampOk(tf, n, now) && now < read
    requires FromSource(o, read) && o.state != Healthy
    ensures NextNode(tf, n, o, now, window) != n
  {
    NextNodeReads(tf, n, o, now, window);
    var stamp := Stamped(o, now).observedAt;
    forall t: int | t < now
      ensures tf.format(t) != tf.format(stamp)
    {
      if tf.format(t) == tf.format(stamp) {
        FormatIsInjective(tf, t, stamp);
      }
    }
  }

  lemma NextStampIsFresh(tf: TimeFormat, n: NodeView, o: Observation, now: int, read: int, window: int)
    requires now < read && FromSource(o, read)
    ensures StampOk(tf, NextNode(tf, n, o, now, window), read + 1)
  {
    var d := Decide(tf, n, Stamped(o, now), now, window);
    NextNodeReads(tf, n, o, now, window);
    StateRoundTrip(d.state);
    if o.state != Healthy {
      var t := Stamped(o, now).observedAt;
      assert t < read + 1 && Read(NextNode(tf, n, o, now, window).annotations, HealthObservedAt) == tf.format(t);
    } else {
      HealthyTexts(d.state);
    }
  }

  lemma HealthyTexts(s: State)
    requires s in {Healthy, Recovering}
    ensures Text(s) !in {"degraded", "unknown"}
    ensures Text(s) == "recovering" <==> s == Recovering
  {
    assert |"healthy"| == 7 && |"degraded"| == 8 && |"recovering"| == 10 && |"unknown"| == 7;
    assert "unknown"[0] != "healthy"[0];
  }

  lemma HealthyExtends(passes: seq<PassRecord>, j: nat, t0: int, p: PassRecord)
    requires HealthySince(passes, j, t0) && (p.ok ==> p.observation.state == Healthy)
    ensures HealthySince(passes + [p], j, t0)
  {
  }

  /** A record that does not touch the current Node. */
  lemma IdleRecordKeepsRecovery(u: Setup, n: NodeView, passes: seq<PassRecord>, p: PassRecord)
    requires RecoveryOk(u, n, passes) && (p.ok ==> p.observation.state == Healthy)
    ensures RecoveryOk(u, n, passes + [p])
  {
    if RecoveryStartedAt in n.annotations {
      var j: nat, t0: int :|
        Read(n.annotations, RecoveryStartedAt) == u.tf.format(t0) && HealthySince(passes, j, t0);
      HealthyExtends(passes, j, t0, p);
    }
  }

  /** Where the start of a recovering decision comes from. */
  lemma RecoveryStart(tf: TimeFormat, n: NodeView, o: Observation, now: int, read: int, window: int)
    requires FromSource(o, read)
    ensures var d := Decide(tf, n, Stamped(o, now), now, window);
      d.state == Recovering ==>
        o.state == Healthy && d.recoveryStartedAt.Some? &&
        (d.recoveryStartedAt == Some(now) ||
         d.recoveryStartedAt == AnnotationTime(tf, n.annotations, RecoveryStartedAt))
    ensures var d := Decide(tf, n, Stamped(o, now), now, window);
      d.recoveryStartedAt.Some? <==> d.state == Recovering
  {
  }

  /** The write of a pass on the current Node. */
  lemma WriteKeepsRecovery(u: Setup, n: NodeView, passes: seq<PassRecord>, p: PassRecord, read: int)
    requires RoundTrips(u.tf) && RecoveryOk(u, n, passes) && FromSource(p.observation, read)
    requires p.ok && p.before == n
    requires p.decision == Decide(u.tf, n, Stamped(p.observation, p.now), p.now, u.window)
    requires p.after == NextNode(u.tf, n, p.observation, p.now, u.window)
    ensures RecoveryOk(u, p.after, passes + [p])
  {
    NextNodeReads(u.tf, n, p.observation, p.now, u.window);
    RecoveryStart(u.tf, n, p.observation, p.now, read, u.window);
    RecoveringText(p.decision.state);
    if p.decision.state == Recovering {
      StartIsRecorded(u, p.now, p.after, p.decision);
      if p.decision.recoveryStartedAt == Some(p.now) {
        assert HealthySince(passes + [p], |passes|, p.now);
      } else {
        StartWasRecorded(u, n);
        var j: nat, t0: int :|
          Read(n.annotations, RecoveryStartedAt) == u.tf.format(t0) && HealthySince(passes, j, t0);
        assert AnnotationTime(u.tf, n.annotations, RecoveryStartedAt) == Some(t0);
        HealthyExtends(passes, j, t0, p);
      }
    }
  }

  lemma RecoveringText(s: State)
    requires !s.Other?
    ensures Text(s) == "recovering" <==> s == Recovering
  {
    assert |"healthy"| == 7 && |"degraded"| == 8 && |"recovering"| == 10 && |"unknown"| == 7;
  }

  lemma StartIsRecorded(u: Setup, now: int, after: NodeView, d: Decision)
    requires RoundTrips(u.tf) && d.recoveryStartedAt.Some?
    requires Read(after.annotations, RecoveryStartedAt) == u.tf.format(d.recoveryStartedAt.value)
    ensures RecoveryStartedAt in after.annotations
  {
    var t := d.recoveryStartedAt.value;
    assert ReadTime(u.tf, u.tf.format(t)) == Some(t);
  }

  lemma StartWasRecorded(u: Setup, n: NodeView)
    requires AnnotationTime(u.tf, n.annotations, RecoveryStartedAt).Some?
    ensures RecoveryStartedAt in n.annotations
  {
  }

  lemma CountsOfAppended(passes: seq<PassRecord>, p: PassRecord)
    ensures Added(passes + [p]) == Added(passes) +
      if p.ok && !HasDegraded(p.before.taints) && HasDegraded(p.after.taints) then 1 else 0
    ensures Removed(passes + [p]) == Removed(passes) +
      if p.ok && HasDegraded(p.before.taints) && !HasDegraded(p.after.taints) then 1 else 0
  {
    assert (passes + [p])[..|passes|] == passes;
  }

  lemma TaintsOfNext(tf: TimeFormat, n: NodeView, o: Observation, now: int, window: int)
    ensures var b := NextNode(tf, n, o, now, window);
      var d := Decide(tf, n, Stamped(o, now), now, window);
      (HasDegraded(b.taints) <==> d.isolate || (HasDegraded(n.taints) && !IsManaged(n.annotations))) &&
      (IsManaged(b.annotations) <==> d.isolate && (IsManaged(n.annotations) || !HasDegraded(n.taints)))
  {
    NextNodeReads(tf, n, o, now, window);
    WithoutDegradedFilters(n.taints);
  }

  lemma WriteKeepsOwnership(u: Setup, c: Cluster, p: PassRecord)
    requires Sound(c) && OwnershipOk(u, c)
    requires p.ok && p.after != p.before ==> p.before == Current(c)
    requires p.after == NextNode(u.tf, p.before, p.observation, p.now, u.window)
    requires p.decision == Decide(u.tf, p.before, Stamped(p.observation, p.now), p.now, u.window)
    ensures OwnershipAfter(u, c, p)
  {
    TaintsOfNext(u.tf, p.before, p.observation, p.now, u.window);
    PassKeepsOwnership(u, c, p);
  }

  lemma PassKeepsOwnership(u: Setup, c: Cluster, p: PassRecord)
    requires Sound(c) && OwnershipOk(u, c)
    requires p.ok && p.after != p.before ==> p.before == Current(c)
    requires HasDegraded(p.after.taints) <==>
      p.decision.isolate || (HasDegraded(p.before.taints) && !IsManaged(p.before.annotations))
    requires IsManaged(p.after.annotations) <==>
      p.decision.isolate && (IsManaged(p.before.annotations) || !HasDegraded(p.before.taints))
    ensures OwnershipAfter(u, c, p)
  {
    CountsOfAppended(c.passes, p);
  }

  /** `OwnershipOk` for the state that has recorded `p`. */
  ghost predicate OwnershipAfter(u: Setup, c: Cluster, p: PassRecord)
    requires c.history != []
  {
    var n := if p.ok && p.after != p.before then p.after else Current(c);
    u.guarded ==>
      (IsManaged(n.annotations) ==> HasDegraded(n.taints)) &&
      (HasDegraded(c.history[0].taints) ==>
         HasDegraded(n.taints) && !IsManaged(n.annotations) && Removed(c.passes + [p]) == 0) &&
      (!HasDegraded(c.history[0].taints) ==> (HasDegraded(n.taints) <==> IsManaged(n.annotations))) &&
      Added(c.passes + [p]) == Removed(c.passes + [p]) + (if IsManaged(n.annotations) then 1 else 0)
  }

  /** `p` records a pass that can happen in `c` and read the source at `read`. */
  ghost predicate TrueRecord(u: Setup, c: Cluster, p: PassRecord, read: int)
    requires c.history != []
  {
    p.after == NextNode(u.tf, p.before, p.observation, p.now, u.window) &&
    p.decision == Decide(u.tf, p.before, Stamped(p.observation, p.now), p.now, u.window) &&
    (p.ok && p.after != p.before ==> p.before == Current(c)) &&
    FromSource(p.observation, read) && p.now < read && StampOk(u.tf, p.before, p.now)
  }

  lemma RecordIsTrue(u: Setup, c: Cluster, o: Observation, read: int, refused: bool)
    requires Sound(c) && StampsOk(u, c) && PhaseOk(u, c) && Enabled(u, c, Write(o, read, refused))
    ensures TrueRecord(u, c, RecordOf(u, c, o, refused), read)
  {
    assert StampOk(u.tf, c.history[c.phase.version], c.phase.now);
  }

  lemma RecordKeepsRecovery(u: Setup, c: Cluster, p: PassRecord, read: int)
    requires RoundTrips(u.tf) && Sound(c) && RecoveryOk(u, Current(c), c.passes) && TrueRecord(u, c, p, read)
    ensures RecoveryAfter(u, c, p)
  {
    if p.ok && p.after != p.before {
      WriteKeepsRecovery(u, Current(c), c.passes, p, read);
    } else {
      if p.ok && p.observation.state != Healthy {
        BadEvidenceIsAlwaysWritten(u.tf, p.before, p.observation, p.now, read, u.window);
        assert false;
      }
      IdleRecordKeepsRecovery(u, Current(c), c.passes, p);
    }
  }

  ghost predicate RecoveryAfter(u: Setup, c: Cluster, p: PassRecord)
    requires c.history != []
  {
    RecoveryOk(u, if p.ok && p.after != p.before then p.after else Current(c), c.passes + [p])
  }

  /** A degraded pass that goes through has written, and wrote the taint. */
  predicate DegradedWrites(p: PassRecord) {
    p.ok && p.decision.state == Degraded ==>
      p.after != p.before && p.observation.state == Degraded && HasDegraded(p.after.taints)
  }

  lemma RecordOfDegraded(u: Setup, c: Cluster, p: PassRecord, read: int)
    requires RoundTrips(u.tf) && Sound(c) && TrueRecord(u, c, p, read)
    ensures DegradedWrites(p)
  {
    if p.ok && p.decision.state == Degraded {
      assert p.observation.state == Degraded;
      BadEvidenceIsAlwaysWritten(u.tf, p.before, p.observation, p.now, read, u.window);
      TaintsOfNext(u.tf, p.before, p.observation, p.now, u.window);
    }
  }

  /** Whatever the record says, if it says true things the invariant survives. */
  lemma RecordedKeeps(u: Setup, c: Cluster, p: PassRecord, read: int)
    requires Inv(u, c) && c.phase.Fetched? && read > c.clock
    requires StampOk(u.tf, p.after, read + 1) && OwnershipAfter(u, c, p) && RecoveryAfter(u, c, p)
    requires DegradedWrites(p)
    ensures Inv(u, Recorded(c, p, read))
  {
    var d := Recorded(c, p, read);
    forall v | 0 <= v < |d.history|
      ensures StampOk(u.tf, d.history[v], read + 1)
    {
      if v < |c.history| {
        assert StampOk(u.tf, c.history[v], c.phase.now);
      }
    }
  }

  lemma WriteKeeps(u: Setup, c: Cluster, o: Observation, read: int, refused: bool)
    requires Inv(u, c) && Enabled(u, c, Write(o, read, refused))
    ensures Inv(u, Apply(u, c, Write(o, read, refused)))
  {
    var p := RecordOf(u, c, o, refused);
    assert TrueRecord(u, c, p, read) by { RecordIsTrue(u, c, o, read, refused); }
    TrueRecordKeeps(u, c, p, read);
  }

  lemma TrueRecordKeeps(u: Setup, c: Cluster, p: PassRecord, read: int)
    requires Inv(u, c) && c.phase.Fetched? && c.clock < read && TrueRecord(u, c, p, read)
    ensures Inv(u, Recorded(c, p, read))
  {
    assert StampOk(u.tf, p.after, read + 1) by {
      NextStampIsFresh(u.tf, p.before, p.observation, p.now, read, u.window);
    }
    assert OwnershipAfter(u, c, p) by { WriteKeepsOwnership(u, c, p); }
    assert RecoveryAfter(u, c, p) by { RecordKeepsRecovery(u, c, p, read); }
    assert DegradedWrites(p) by { RecordOfDegraded(u, c, p, read); }
    RecordedKeeps(u, c, p, read);
  }

  lemma GetKeeps(u: Setup, c: Cluster, version: nat, now: int)
    requires Inv(u, c) && Enabled(u, c, Get(version, now))
    ensures Inv(u, Apply(u, c, Get(version, now)))
  {
    var d := Apply(u, c, Get(version, now));
    forall v | 0 <= v < |d.history|
      ensures StampOk(u.tf, d.history[v], now)
    {
      assert StampOk(u.tf, c.history[v], c.clock + 1);
    }
  }

  /** A step of a pass that leaves the Node alone. */
  lemma PhaseStepKeeps(u: Setup, c: Cluster, d: Cluster)
    requires Inv(u, c) && d == c.(pods := d.pods, phase := d.phase)
    requires !c.phase.Fetched? && !d.phase.Fetched? && PhaseOk(u, d) && PodsOk(d)
    ensures Inv(u, d)
  {
  }

  lemma ListKeeps(u: Setup, c: Cluster, items: seq<Pod>, fails: bool)
    requires Inv(u, c) && Enabled(u, c, List(items, fails))
    ensures Inv(u, Apply(u, c, List(items, fails)))
  {
    var d := Apply(u, c, List(items, fails));
    ListingFindsExposed(u, c, items);
    assert !fails ==> EvictionOk(u, d, c.phase.written) by { EvictionFrames(u, c, d, c.phase.written); }
    PhaseStepKeeps(u, c, d);
  }

  lemma ListingFindsExposed(u: Setup, c: Cluster, items: seq<Pod>)
    requires PodsOk(c) && IsListing(c.pods, items) && u.nodeName != ""
    ensures forall id :: id in Exposed(u, c) ==> id in Targets(items, u.nodeName)
  {
    forall id | id in Exposed(u, c)
      ensures id in Targets(items, u.nodeName)
    {
      ImpactedAreTargets(items, u.nodeName, id);
      assert c.pods[id] in items && c.pods[id].id == id;
      assert multiset(Targets(items, u.nodeName))[id] == 1;
    }
  }

  lemma EvictKeeps(u: Setup, c: Cluster, refuse: bool)
    requires Inv(u, c) && Enabled(u, c, Evict(refuse))
    ensures Inv(u, Apply(u, c, Evict(refuse)))
  {
    var d := Apply(u, c, Evict(refuse));
    if u.guarded {
      EvictShrinks(u, c, refuse);
    }
    EvictTouches(c, refuse);
    assert EvictionOk(u, d, c.phase.written) by { EvictionFrames(u, c, d, c.phase.written); }
    PhaseStepKeeps(u, c, d);
  }

  lemma EvictionFrames(u: Setup, c: Cluster, d: Cluster, written: Option<nat>)
    requires c.history != [] && EvictionOk(u, c, written) && d.history == c.history && d.passes == c.passes
    ensures EvictionOk(u, d, written)
  {
  }

  lemma EvictTouches(c: Cluster, refuse: bool)
    requires c.phase.Evicting? && c.phase.pending != [] && PodsOk(c)
    ensures var d := ApplyEvict(c, refuse);
      d == c.(pods := d.pods, phase := d.phase) && PodsOk(d) &&
      d.phase.Evicting? && d.phase.written == c.phase.written
  {
  }

  /** An eviction that goes through, or finds no pod, leaves nothing exposed that is not pending. */
  lemma EvictShrinks(u: Setup, c: Cluster, refuse: bool)
    requires c.phase.Evicting? && c.phase.pending != []
    requires c.phase.refused == [] ==> forall id :: id in Exposed(u, c) ==> id in c.phase.pending
    ensures var d := ApplyEvict(c, refuse);
      d.phase.refused == [] ==> forall id :: id in Exposed(u, d) ==> id in d.phase.pending
  {
    var d := ApplyEvict(c, refuse);
    var head := c.phase.pending[0];
    assert c.phase.pending == [head] + d.phase.pending;
    if d.phase.refused == [] {
      forall id | id in Exposed(u, d)
        ensures id in d.phase.pending
      {
        assert id != head && id in Exposed(u, c);
      }
    }
  }

  /** A step of another actor that leaves the Node alone. */
  lemma PodStepKeeps(u: Setup, c: Cluster, d: Cluster)
    requires Inv(u, c) && d == c.(pods := d.pods) && PodsOk(d)
    requires HasDegraded(Current(c).taints) ==> Exposed(u, d) <= Exposed(u, c)
    ensures Inv(u, d)
  {
  }

  lemma EditKeeps(u: Setup, c: Cluster, view: NodeView)
    requires Inv(u, c) && Enabled(u, c, Edit(view))
    ensures Inv(u, Apply(u, c, Edit(view)))
  {
    var d := Apply(u, c, Edit(view));
    var n := Current(c);
    assert HealthState in OWN_KEYS && HealthObservedAt in OWN_KEYS && RecoveryStartedAt in OWN_KEYS &&
           Managed in OWN_KEYS;
    assert Read(view.annotations, HealthState) == Read(n.annotations, HealthState);
    assert Read(view.annotations, HealthObservedAt) == Read(n.annotations, HealthObservedAt);
    assert Read(view.annotations, RecoveryStartedAt) == Read(n.annotations, RecoveryStartedAt);
    assert IsManaged(view.annotations) == IsManaged(n.annotations);
    assert StampOk(u.tf, n, if c.phase.Fetched? then c.phase.now else c.clock + 1);
    assert Current(d) == view;
    assert Exposed(u, d) == Exposed(u, c);
  }

  /** While the taint is on the stored Node, no step makes another pod exposed. */
  lemma ExposureNeverGrows(u: Setup, c: Cluster, a: Action)
    requires Sound(c) && u.nodeName != "" && PodsOk(c) && Enabled(u, c, a) && HasDegraded(Current(c).taints)
    ensures Exposed(u, Apply(u, c, a)) <= Exposed(u, c)
    ensures PodsOk(Apply(u, c, a))
  {
  }

  lemma PodsStayOk(u: Setup, c: Cluster, a: Action)
    requires Sound(c) && PodsOk(c) && Enabled(u, c, a)
    ensures PodsOk(Apply(u, c, a))
  {
  }

  lemma ActionKeeps(u: Setup, c: Cluster, a: Action)
    requires Inv(u, c) && Enabled(u, c, a)
    ensures Inv(u, Apply(u, c, a))
  {
    match a
    case Get(version, now) => GetKeeps(u, c, version, now);
    case Write(o, read, refused) => WriteKeeps(u, c, o, read, refused);
    case List(items, fails) => ListKeeps(u, c, items, fails);
    case Evict(refuse) => EvictKeeps(u, c, refuse);
    case Return => PhaseStepKeeps(u, c, c.(phase := Idle));
    case Edit(view) => EditKeeps(u, c, view);
    case _ => PodActionKeeps(u, c, a);
  }

  lemma PodActionKeeps(u: Setup, c: Cluster, a: Action)
    requires Inv(u, c) && Enabled(u, c, a) && (a.Bind? || a.Create? || a.Progress? || a.Delete?)
    ensures Inv(u, Apply(u, c, a))
  {
    PodsStayOk(u, c, a);
    if HasDegraded(Current(c).taints) {
      ExposureNeverGrows(u, c, a);
    }
    PodStepKeeps(u, c, Apply(u, c, a));
  }

  lemma {:induction false} RunKeeps(u: Setup, c: Cluster, actions: seq<Action>)
    requires Inv(u, c) && CanRun(u, c, actions)
    ensures Inv(u, Run(u, c, actions))
    decreases |actions|
  {
    if actions != [] {
      ActionKeeps(u, c, actions[0]);
      RunKeeps(u, Apply(u, c, actions[0]), actions[1..]);
    }
  }
}
