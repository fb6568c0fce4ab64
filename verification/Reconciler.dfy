/** One reconcile pass: read a Node, turn an observation into a decision, rewrite the Node, write it
    back if it changed, and evict training pods from a degraded node. */
module Reconciler {
  import opened Options
  import opened Strings
  import opened Health
  import opened Nodes

  function EffectiveWindow(window: int): (w: int)
    ensures w > 0
    ensures window > 0 ==> w == window
    ensures window <= 0 ==> w == 20_000_000_000
  {
    if window <= 0 then DEFAULT_RECOVERY_WINDOW else window
  }

  /** An observation without a time gets the time of the pass. */
  function Stamped(o: Observation, now: int): Observation {
    if o.observedAt == ZERO_TIME then o.(observedAt := now) else o
  }

  function Decide(tf: TimeFormat, n: NodeView, o: Observation, now: int, window: int): Decision {
    DecideIsolation(ParseState(Read(n.annotations, HealthState)), IsManaged(n.annotations),
                    AnnotationTime(tf, n.annotations, RecoveryStartedAt), o, now, EffectiveWindow(window))
  }

  /** The Node a pass wants. */
  function NextNode(tf: TimeFormat, n: NodeView, o: Observation, now: int, window: int): NodeView {
    var d := Decide(tf, n, Stamped(o, now), now, window);
    var marked := NodeView(HealthAnnotations(tf, n.annotations, d, Stamped(o, now)), n.taints);
    if d.isolate then Isolate(marked) else Recover(marked)
  }

  /** What the pass reads back from the Node it wants. */
  lemma NextNodeReads(tf: TimeFormat, n: NodeView, o: Observation, now: int, window: int)
    ensures var d := Decide(tf, n, Stamped(o, now), now, window);
      var b := NextNode(tf, n, o, now, window);
      Carries(tf, b.annotations, d, Stamped(o, now)) &&
      (IsManaged(b.annotations) <==>
         d.isolate && (IsManaged(n.annotations) || !HasDegraded(n.taints))) &&
      (d.isolate ==> HasDegraded(b.taints)) &&
      b.taints == (if d.isolate then WithDegraded(n.taints)
                   else if IsManaged(n.annotations) then WithoutDegraded(n.taints) else n.taints)
    ensures AgreeOutside(n.annotations, NextNode(tf, n, o, now, window).annotations, OWN_KEYS)
  {
    var d := Decide(tf, n, Stamped(o, now), now, window);
    HealthAnnotationsRead(tf, n.annotations, d, Stamped(o, now));
    HealthAnnotationsAgree(tf, n.annotations, d, Stamped(o, now));
  }

  /** A pass touches only the controller's own annotations and the degraded taint: the other taints
      keep their order, and the event filter never sees the controller's own write. */
  lemma PassTouchesOnlyItsOwn(tf: TimeFormat, n: NodeView, o: Observation, now: int, window: int)
    ensures var b := NextNode(tf, n, o, now, window);
      WithoutDegraded(b.taints) == WithoutDegraded(n.taints) &&
      AgreeOutside(n.annotations, b.annotations, OWN_KEYS) &&
      !PassesFilter(n.annotations, b.annotations)
  {
    var b := NextNode(tf, n, o, now, window);
    assert AgreeOutside(n.annotations, b.annotations, OWN_KEYS) &&
           WithoutDegraded(b.taints) == WithoutDegraded(n.taints) by {
      NextNodeReads(tf, n, o, now, window);
      OtherTaintsStay(n.taints);
    }
    OwnKeysAreUnwatched(n.annotations, b.annotations);
  }

  lemma OwnKeysAreUnwatched(before: Annotations, after: Annotations)
    requires AgreeOutside(before, after, OWN_KEYS)
    ensures !PassesFilter(before, after)
  {
    assert InjectedFault !in OWN_KEYS && InjectedFaultDevice !in OWN_KEYS && RecoveryConfirmed !in OWN_KEYS;
  }

  lemma OtherTaintsStay(taints: seq<Taint>)
    ensures WithoutDegraded(WithDegraded(taints)) == WithoutDegraded(taints)
    ensures WithoutDegraded(WithoutDegraded(taints)) == WithoutDegraded(taints)
  {
    WithoutDegradedOfAdded(taints);
    WithoutDegradedFilters(taints);
    WithoutDegradedFilters(WithoutDegraded(taints));
  }

  /** The update filter of `SetupWithManager`: whether an edit wakes the controller. */
  predicate PassesFilter(before: Annotations, after: Annotations) {
    Read(before, InjectedFault) != Read(after, InjectedFault) ||
    Read(before, InjectedFaultDevice) != Read(after, InjectedFaultDevice) ||
    Read(before, RecoveryConfirmed) != Read(after, RecoveryConfirmed)
  }

  /** An edit wakes the controller exactly when one of the three annotations of the annotation source reads
      differently afterwards. */
  lemma WakesExactly(before: Annotations, after: Annotations)
    ensures PassesFilter(before, after) <==>
      exists k :: k in {InjectedFault, InjectedFaultDevice, RecoveryConfirmed} && Read(before, k) != Read(after, k)
    ensures PassesFilter(before, after) <==> exists k :: k in WATCHED_KEYS && Read(before, k) != Read(after, k)
  {
  }

  /** So setting one of the three wakes it unless the value was there already, and so does clearing it
      unless it was missing or empty; no edit of other annotations does. */
  lemma EditsWakeExactly(a: Annotations, key: Key, value: string)
    ensures PassesFilter(a, a[key := value]) <==>
      key in {InjectedFault, InjectedFaultDevice, RecoveryConfirmed} && (if key in a then a[key] else "") != value
    ensures PassesFilter(a, a - {key}) <==>
      key in {InjectedFault, InjectedFaultDevice, RecoveryConfirmed} && key in a && a[key] != ""
  {
    WakesExactly(a, a[key := value]);
    WakesExactly(a, a - {key});
  }

  /** What a pass records of its evidence; the time of the pass if the evidence has none, that is, carries
      midnight of the first day of year one, 719162 days before the epoch. */
  lemma EvidenceIsRecorded(tf: TimeFormat, n: NodeView, o: Observation, now: int, window: int)
    ensures var a := NextNode(tf, n, o, now, window).annotations;
      Read(a, HealthSource) == o.source && Read(a, HealthReason) == o.reason && Read(a, HealthDevice) == o.device
    ensures var stamp := tf.format(if o.observedAt == -719_162 * 86_400 * 1_000_000_000 then now else o.observedAt);
      Read(NextNode(tf, n, o, now, window).annotations, HealthObservedAt) == stamp
  {
    NextNodeReads(tf, n, o, now, window);
  }

  /** After a pass, "managed" implies that the exact taint is there; and the marker appears only when
      the pass added the taint itself. */
  lemma ManagedMeansTainted(tf: TimeFormat, n: NodeView, o: Observation, now: int, window: int)
    ensures var b := NextNode(tf, n, o, now, window);
      (IsManaged(b.annotations) ==> HasDegraded(b.taints)) &&
      (!IsManaged(n.annotations) && IsManaged(b.annotations) ==> !HasDegraded(n.taints)) &&
      (HasDegraded(n.taints) && !HasDegraded(b.taints) ==> IsManaged(n.annotations))
  {
    NextNodeReads(tf, n, o, now, window);
  }

  /** Deciding again from what a decision left behind gives the same decision. */
  lemma DecideAgain(previous: State, isolated: bool, started: Option<int>, o: Observation, now: int, window: int,
                    d: Decision, still: bool)
    requires window > 0 && d == DecideIsolation(previous, isolated, started, o, now, window)
    requires d.state != Degraded ==> (still ==> d.isolate) && (isolated && d.isolate ==> still)
    requires d.state == Unknown ==> still == isolated
    ensures DecideIsolation(d.state, still, d.recoveryStartedAt, o, now, window) == d
  {
  }

  /** What the annotations of a pass say, read by the next one. */
  lemma CarriedDecision(tf: TimeFormat, a: Annotations, d: Decision, o: Observation)
    requires RoundTrips(tf) && Carries(tf, a, d, o) && !d.state.Other?
    ensures ParseState(Read(a, HealthState)) == d.state
    ensures AnnotationTime(tf, a, RecoveryStartedAt) == d.recoveryStartedAt
  {
    StateRoundTrip(d.state);
    if d.recoveryStartedAt.Some? {
      var t: int := d.recoveryStartedAt.value;
      assert ReadTime(tf, tf.format(t)) == Some(t);
    } else {
      assert TrimSpace("") == "";
    }
  }

  /** Whatever Node `b` carries the decision `d` made on `n`, the same evidence decides `d` on it. */
  lemma CarriedDecisionIsStable(tf: TimeFormat, n: NodeView, o: Observation, now: int, window: int,
                                d: Decision, b: NodeView)
    requires RoundTrips(tf) && d == Decide(tf, n, o, now, window) && Carries(tf, b.annotations, d, o)
    requires IsManaged(b.annotations) <==> d.isolate && (IsManaged(n.annotations) || !HasDegraded(n.taints))
    ensures Decide(tf, b, o, now, window) == d
  {
    var previous, isolated := ParseState(Read(n.annotations, HealthState)), IsManaged(n.annotations);
    CarriedDecision(tf, b.annotations, d, o);
    DecideAgain(previous, isolated, AnnotationTime(tf, n.annotations, RecoveryStartedAt), o, now,
                EffectiveWindow(window), d, IsManaged(b.annotations));
  }

  /** The same evidence at the same time leads to the same decision again. */
  lemma DecisionIsStable(tf: TimeFormat, n: NodeView, o: Observation, now: int, window: int)
    requires RoundTrips(tf)
    ensures Decide(tf, NextNode(tf, n, o, now, window), Stamped(o, now), now, window) ==
      Decide(tf, n, Stamped(o, now), now, window)
  {
    NextNodeReads(tf, n, o, now, window);
    CarriedDecisionIsStable(tf, n, Stamped(o, now), now, window, Decide(tf, n, Stamped(o, now), now, window),
                            NextNode(tf, n, o, now, window));
  }

  /** Repeating a pass changes nothing. */
  lemma PassIsIdempotent(tf: TimeFormat, n: NodeView, o: Observation, now: int, window: int)
    requires RoundTrips(tf)
    ensures NextNode(tf, NextNode(tf, n, o, now, window), o, now, window) == NextNode(tf, n, o, now, window)
  {
    var d := Decide(tf, n, Stamped(o, now), now, window);
    var b := NextNode(tf, n, o, now, window);
    assert Decide(tf, b, Stamped(o, now), now, window) == d by { DecisionIsStable(tf, n, o, now, window); }
    NextNodeReads(tf, n, o, now, window);
    HealthAnnotationsStable(tf, b.annotations, d, Stamped(o, now));
  }
}
