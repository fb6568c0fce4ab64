/** What the cluster invariant says about every run of the controller. */
module ClusterTheorems {
  import opened Options
  import opened Health
  import opened Strings
  import opened Nodes
  import opened Pods
  import opened Reconciler
  import opened Cluster
  import opened ClusterInvariant
  import opened ClusterSteps

  ghost predicate Reached(u: Setup, start: Cluster, actions: seq<Action>, c: Cluster) {
    RoundTrips(u.tf) && u.nodeName != "" && Init(start) && Sound(start) &&
    CanRun(u, start, actions) && c == Run(u, start, actions)
  }

  lemma ReachedIsOk(u: Setup, start: Cluster, actions: seq<Action>, c: Cluster)
    requires Reached(u, start, actions, c)
    ensures Inv(u, c)
  {
    InitOk(u, start);
    RunKeeps(u, start, actions);
  }

  lemma {:induction false} RunInTwo(u: Setup, c: Cluster, first: seq<Action>, second: seq<Action>)
    requires Sound(c) && CanRun(u, c, first) && CanRun(u, Run(u, c, first), second)
    ensures CanRun(u, c, first + second) && Run(u, c, first + second) == Run(u, Run(u, c, first), second)
    decreases |first|
  {
    if first == [] {
      assert first + second == second;
    } else {
      var a, t, both := first[0], Apply(u, c, first[0]), first + second;
      assert both[0] == a && both[1..] == first[1..] + second;
      RunInTwo(u, t, first[1..], second);
      assert CanRun(u, t, both[1..]) && Run(u, t, both[1..]) == Run(u, Run(u, c, first), second);
    }
  }

  /** A pass that gave up isolation the controller owned. */
  predicate Released(p: PassRecord) {
    p.ok && IsManaged(p.before.annotations) && !p.decision.isolate
  }

  /** Pass `j` began a stretch that lasted a whole recovery window and in which every pass that went
      through, up to and including pass `i`, saw healthy evidence. */
  ghost predicate Earned(u: Setup, passes: seq<PassRecord>, j: nat, i: nat)
    requires i < |passes|
  {
    j < i && passes[j].ok && passes[j].now + EffectiveWindow(u.window) <= passes[i].now &&
    forall k :: j <= k <= i && passes[k].ok ==> passes[k].observation.state == Healthy
  }

  ghost predicate ReleasesEarned(u: Setup, passes: seq<PassRecord>) {
    forall i :: 0 <= i < |passes| && Released(passes[i]) ==> exists j: nat :: Earned(u, passes, j, i)
  }

  lemma EarnedExtends(u: Setup, passes: seq<PassRecord>, p: PassRecord)
    requires ReleasesEarned(u, passes)
    requires Released(p) ==> exists j: nat :: Earned(u, passes + [p], j, |passes|)
    ensures ReleasesEarned(u, passes + [p])
  {
    forall i | 0 <= i < |passes| && Released(passes[i])
      ensures exists j: nat :: Earned(u, passes + [p], j, i)
    {
      var j: nat :| Earned(u, passes, j, i);
      assert Earned(u, passes + [p], j, i);
    }
  }

  /** What a release means for the Node the pass read. */
  lemma ReleaseReads(u: Setup, c: Cluster, p: PassRecord, read: int, t0: int)
    requires RoundTrips(u.tf) && c.history != [] && TrueRecord(u, c, p, read) && Released(p)
    requires Read(p.before.annotations, RecoveryStartedAt) == u.tf.format(t0)
    ensures t0 + EffectiveWindow(u.window) <= p.now
  {
    assert ReadTime(u.tf, u.tf.format(t0)) == Some(t0);
    ReleaseExactly(ParseState(Read(p.before.annotations, HealthState)), true, Some(t0),
                   Stamped(p.observation, p.now), p.now, EffectiveWindow(u.window));
  }

  lemma ReleaseWrites(u: Setup, c: Cluster, p: PassRecord, read: int)
    requires c.history != [] && TrueRecord(u, c, p, read) && Released(p)
    ensures p.before == Current(c) && p.observation.state == Healthy && RecoveryStartedAt in p.before.annotations
  {
    TaintsOfNext(u.tf, p.before, p.observation, p.now, u.window);
    ReleaseExactly(ParseState(Read(p.before.annotations, HealthState)), true,
                   AnnotationTime(u.tf, p.before.annotations, RecoveryStartedAt),
                   Stamped(p.observation, p.now), p.now, EffectiveWindow(u.window));
    StartWasRecorded(u, p.before);
  }

  /** A release by the pass being written is earned. */
  lemma ReleaseIsEarned(u: Setup, c: Cluster, p: PassRecord, read: int)
    requires RoundTrips(u.tf) && Sound(c) && RecoveryOk(u, Current(c), c.passes)
    requires TrueRecord(u, c, p, read) && Released(p)
    ensures exists j: nat :: Earned(u, c.passes + [p], j, |c.passes|)
  {
    ReleaseWrites(u, c, p, read);
    var j: nat, t0: int :|
      Read(p.before.annotations, RecoveryStartedAt) == u.tf.format(t0) && HealthySince(c.passes, j, t0);
    ReleaseReads(u, c, p, read, t0);
    assert Earned(u, c.passes + [p], j, |c.passes|);
  }

  lemma {:induction false} ReleasesStayEarned(u: Setup, c: Cluster, actions: seq<Action>)
    requires Inv(u, c) && ReleasesEarned(u, c.passes) && CanRun(u, c, actions)
    ensures ReleasesEarned(u, Run(u, c, actions).passes)
    decreases |actions|
  {
    if actions != [] {
      var a := actions[0];
      if a.Write? {
        var p := RecordOf(u, c, a.observation, a.refused);
        if Released(p) {
          RecordIsTrue(u, c, a.observation, a.read, a.refused);
          ReleaseIsEarned(u, c, p, a.read);
        }
        EarnedExtends(u, c.passes, p);
      }
      ActionKeeps(u, c, a);
      ReleasesStayEarned(u, Apply(u, c, a), actions[1..]);
    }
  }

  /** All evidence from pass `j` to pass `i`, a window later, was healthy. */
  ghost predicate HealthyStretch(u: Setup, passes: seq<PassRecord>, j: nat, i: nat) {
    j <= i < |passes| && passes[j].now + EffectiveWindow(u.window) <= passes[i].now &&
    forall k :: j <= k <= i ==> passes[k].observation.state == Healthy
  }

  /** Pass `k` is the last one that is at least a window older than pass `i`. */
  ghost predicate LastWindowStart(u: Setup, passes: seq<PassRecord>, k: nat, i: nat)
    requires i < |passes|
  {
    k < i && passes[k].now + EffectiveWindow(u.window) <= passes[i].now &&
    forall m :: k < m < i ==> passes[m].now + EffectiveWindow(u.window) > passes[i].now
  }

  lemma {:induction false} LastWindowStartExists(u: Setup, passes: seq<PassRecord>, j: nat, n: nat, i: nat)
    requires j < n <= i < |passes| && passes[j].now + EffectiveWindow(u.window) <= passes[i].now
    requires forall m :: n <= m < i ==> passes[m].now + EffectiveWindow(u.window) > passes[i].now
    ensures exists k: nat :: j <= k && LastWindowStart(u, passes, k, i)
    decreases n
  {
    if passes[n - 1].now + EffectiveWindow(u.window) <= passes[i].now {
      assert LastWindowStart(u, passes, n - 1, i);
    } else {
      LastWindowStartExists(u, passes, j, n - 1, i);
    }
  }

  /** No pass from `k` to `i` whose write failed had seen anything but healthy evidence. */
  predicate NothingMissed(passes: seq<PassRecord>, k: nat, i: nat)
    requires i < |passes|
  {
    forall m :: k <= m <= i && !passes[m].ok ==> passes[m].observation.state == Healthy
  }

  /** Given that the passes that went through saw healthy evidence for a window, all evidence of some
      window was healthy exactly if the failed passes of the shortest one missed nothing. */
  lemma StretchExactly(u: Setup, passes: seq<PassRecord>, j: nat, k: nat, i: nat)
    requires i < |passes| && Earned(u, passes, j, i) && j <= k && LastWindowStart(u, passes, k, i)
    ensures (exists s: nat :: HealthyStretch(u, passes, s, i)) <==> NothingMissed(passes, k, i)
  {
    if NothingMissed(passes, k, i) {
      assert HealthyStretch(u, passes, k, i);
    }
    if s: nat :| HealthyStretch(u, passes, s, i) {
      assert s < i by { assert EffectiveWindow(u.window) > 0; }
      assert s <= k;
    }
  }

  /** No early clearing. In every run, whichever writes fail, whoever edits the rest of the Node, and
      however stale the cache is: a pass that releases owned isolation ends a stretch of at least a
      recovery window in which every pass that went through saw healthy evidence. Evidence seen only by
      passes whose write failed is not covered: some stretch of a window's length was healthy without
      exception if and only if no failed pass since the last possible start of one saw other evidence. */
  lemma NoEarlyClearing(u: Setup, start: Cluster, actions: seq<Action>, c: Cluster, i: nat)
    requires Reached(u, start, actions, c) && i < |c.passes| && Released(c.passes[i])
    ensures exists j: nat :: Earned(u, c.passes, j, i)
    ensures exists k: nat ::
      LastWindowStart(u, c.passes, k, i) &&
      ((exists s: nat :: HealthyStretch(u, c.passes, s, i)) <==> NothingMissed(c.passes, k, i))
  {
    InitOk(u, start);
    ReleasesStayEarned(u, start, actions);
    var j: nat :| Earned(u, c.passes, j, i);
    LastWindowStartExists(u, c.passes, j, i, i);
    var k: nat :| j <= k && LastWindowStart(u, c.passes, k, i);
    StretchExactly(u, c.passes, j, k, i);
  }

  /** So if no write on evidence that is not healthy ever fails, a release always follows a window of
      nothing but healthy evidence. */
  lemma WrittenEvidenceCounts(u: Setup, start: Cluster, actions: seq<Action>, c: Cluster, i: nat)
    requires Reached(u, start, actions, c) && i < |c.passes| && Released(c.passes[i])
    requires forall p :: p in c.passes && !p.ok ==> p.observation.state == Healthy
    ensures exists s: nat :: HealthyStretch(u, c.passes, s, i)
  {
    NoEarlyClearing(u, start, actions, c, i);
    var k: nat :| LastWindowStart(u, c.passes, k, i) &&
      ((exists s: nat :: HealthyStretch(u, c.passes, s, i)) <==> NothingMissed(c.passes, k, i));
    assert NothingMissed(c.passes, k, i);
  }

  /** Why the exception matters. A node has been recovering since `t0`; at `t1`, inside the window,
      evidence is missing. If that pass is written, the node is still isolated when the window ends; if
      its write fails, the node is released on time as if nothing had been seen. */
  lemma FailedWriteHidesEvidence(tf: TimeFormat, n: NodeView, healthy: Observation, missing: Observation,
                                 t0: int, t1: int, end: int, window: int,
                                 written: NodeView, held: NodeView, freed: NodeView)
    requires RoundTrips(tf) && RecoveringSince(tf, n, t0) && t0 < t1 < end == t0 + EffectiveWindow(window)
    requires healthy.state == Healthy && missing.state == Unknown
    requires written == NextNode(tf, n, missing, t1, window)
    requires held == NextNode(tf, written, healthy, end, window)
    requires freed == NextNode(tf, n, healthy, end, window)
    ensures IsManaged(held.annotations) && !IsManaged(freed.annotations) && !HasDegraded(freed.taints)
  {
    assert IsManaged(held.annotations) by {
      MissingWritten(tf, n, missing, t1, healthy, end, window, written);
    }
    assert !IsManaged(freed.annotations) && !HasDegraded(freed.taints) by {
      Releases(tf, n, healthy, t0, end, window);
    }
  }

  lemma MissingWritten(tf: TimeFormat, n: NodeView, missing: Observation, t1: int, healthy: Observation, end: int,
                       window: int, written: NodeView)
    requires RoundTrips(tf) && IsManaged(n.annotations) && healthy.state == Healthy && missing.state == Unknown
    requires written == NextNode(tf, n, missing, t1, window)
    ensures IsManaged(NextNode(tf, written, healthy, end, window).annotations)
  {
    ForgetsRecovery(tf, n, missing, t1, window);
    StaysManaged(tf, written, healthy, end, window);
  }

  lemma StaysManaged(tf: TimeFormat, n: NodeView, o: Observation, now: int, window: int)
    requires RoundTrips(tf) && IsManaged(n.annotations) && o.state == Healthy
    requires AnnotationTime(tf, n.annotations, RecoveryStartedAt).None?
    ensures IsManaged(NextNode(tf, n, o, now, window).annotations)
  {
    StartsRecovering(tf, n, o, now, window);
  }

  /** The node is owned and has been recovering since `s`. */
  ghost predicate RecoveringSince(tf: TimeFormat, n: NodeView, s: int) {
    IsManaged(n.annotations) && ParseState(Read(n.annotations, HealthState)) == Recovering &&
    AnnotationTime(tf, n.annotations, RecoveryStartedAt) == Some(s)
  }

  lemma StartsRecovering(tf: TimeFormat, n: NodeView, o: Observation, now: int, window: int)
    requires RoundTrips(tf) && IsManaged(n.annotations) && o.state == Healthy
    requires ParseState(Read(n.annotations, HealthState)) != Recovering ||
             AnnotationTime(tf, n.annotations, RecoveryStartedAt).None?
    ensures RecoveringSince(tf, NextNode(tf, n, o, now, window), now)
  {
    NextNodeReads(tf, n, o, now, window);
    StateRoundTrip(Recovering);
    assert ReadTime(tf, tf.format(now)) == Some(now);
  }

  lemma KeepsRecovering(tf: TimeFormat, n: NodeView, o: Observation, s: int, now: int, window: int)
    requires RoundTrips(tf) && RecoveringSince(tf, n, s) && o.state == Healthy
    requires now < s + EffectiveWindow(window)
    ensures RecoveringSince(tf, NextNode(tf, n, o, now, window), s)
  {
    NextNodeReads(tf, n, o, now, window);
    StateRoundTrip(Recovering);
    assert ReadTime(tf, tf.format(s)) == Some(s);
  }

  lemma Releases(tf: TimeFormat, n: NodeView, o: Observation, s: int, now: int, window: int)
    requires RoundTrips(tf) && RecoveringSince(tf, n, s) && o.state == Healthy
    requires now >= s + EffectiveWindow(window)
    ensures var b := NextNode(tf, n, o, now, window);
      !IsManaged(b.annotations) && b.taints == WithoutDegraded(n.taints) && !HasDegraded(b.taints) &&
      Read(b.annotations, HealthState) == "healthy"
  {
    NextNodeReads(tf, n, o, now, window);
    WithoutDegradedFilters(n.taints);
  }

  lemma ForgetsRecovery(tf: TimeFormat, n: NodeView, o: Observation, now: int, window: int)
    requires IsManaged(n.annotations) && o.state == Unknown
    ensures var b := NextNode(tf, n, o, now, window);
      IsManaged(b.annotations) && AnnotationTime(tf, b.annotations, RecoveryStartedAt) == None
  {
    NextNodeReads(tf, n, o, now, window);
  }

  /** In every reachable state the stored Node is recovering exactly when a recovery start is recorded. */
  lemma RecoveringExactlyWhenStarted(u: Setup, start: Cluster, actions: seq<Action>, c: Cluster)
    requires Reached(u, start, actions, c)
    ensures RecoveryStartedAt in Current(c).annotations <==> Read(Current(c).annotations, HealthState) == "recovering"
  {
    ReachedIsOk(u, start, actions, c);
  }

  /** A pass on bad or missing evidence leaves no recovery start behind, and keeps owned isolation. */
  lemma BadEvidenceResets(tf: TimeFormat, n: NodeView, o: Observation, read: int, now: int, window: int)
    requires FromSource(o, read) && o.state != Healthy
    ensures var b := NextNode(tf, n, o, now, window);
      RecoveryStartedAt !in b.annotations && Read(b.annotations, HealthState) == Text(o.state) &&
      (IsManaged(n.annotations) ==> IsManaged(b.annotations))
  {
    NextNodeReads(tf, n, o, now, window);
  }

  /** Taint before evict. Whenever the controller is about to list or evict pods, the same pass has
      successfully written the taint, on degraded evidence. */
  lemma TaintBeforeEvict(u: Setup, start: Cluster, actions: seq<Action>, c: Cluster)
    requires Reached(u, start, actions, c) && (c.phase.Listing? || c.phase.Evicting?)
    ensures c.passes != [] && c.phase.written.Some? && c.phase.written.value < |c.history|
    ensures var p := c.passes[|c.passes| - 1];
      p.ok && p.after != p.before && c.history[c.phase.written.value] == p.after &&
      p.observation.state == Degraded && HasDegraded(p.after.taints)
    ensures u.guarded ==> HasDegraded(Current(c).taints)
  {
    ReachedIsOk(u, start, actions, c);
  }

  /** Why a pod may stay on a degraded node: it is on its way out or finished, is not a training pod, has
      not opted in, or tolerates the taint. */
  predicate MayStay(pod: Pod) {
    pod.terminating || pod.phase in {Succeeded, Failed} || TrainingJob !in pod.labels ||
    TrimSpace(pod.labels[TrainingJob]) == "" || AutoRemediate !in pod.labels ||
    TrimSpace(pod.labels[AutoRemediate]) != "true" || pod.tolerates
  }

  lemma ExposedExactly(u: Setup, c: Cluster)
    ensures forall id :: id in Exposed(u, c) <==>
      id in c.pods && c.pods[id].nodeName == u.nodeName && !MayStay(c.pods[id])
  {
    assert TrimSpace("") == "";
  }

  /** A degraded pass that comes to its end without a refused eviction has emptied the node of exposed
      pods, whatever was created, bound or deleted meanwhile. */
  lemma CleanPassEmptiesNode(u: Setup, start: Cluster, actions: seq<Action>, c: Cluster)
    requires Reached(u, start, actions, c) && u.guarded && Enabled(u, c, Return) && c.phase.refused == []
    ensures Exposed(u, c) == {}
    ensures forall id :: id in c.pods && c.pods[id].nodeName == u.nodeName ==> MayStay(c.pods[id])
  {
    ReachedIsOk(u, start, actions, c);
    ExposedExactly(u, c);
  }

  /** The stored Node carries the taint in every state the actions go through. */
  ghost predicate TaintedThroughout(u: Setup, c: Cluster, actions: seq<Action>)
    requires Sound(c) && CanRun(u, c, actions)
    decreases |actions|
  {
    HasDegraded(Current(c).taints) &&
    (actions == [] || TaintedThroughout(u, Apply(u, c, actions[0]), actions[1..]))
  }

  /** While the node stays tainted, the set of exposed pods only shrinks. */
  lemma {:induction false} ExposureShrinks(u: Setup, c: Cluster, actions: seq<Action>)
    requires Inv(u, c) && CanRun(u, c, actions) && TaintedThroughout(u, c, actions)
    ensures Exposed(u, Run(u, c, actions)) <= Exposed(u, c)
    decreases |actions|
  {
    if actions != [] {
      ExposureNeverGrows(u, c, actions[0]);
      ActionKeeps(u, c, actions[0]);
      ExposureShrinks(u, Apply(u, c, actions[0]), actions[1..]);
    }
  }

  /** No eviction refused so far: every exposed pod is still to be evicted. */
  ghost predicate PendingOk(u: Setup, c: Cluster) {
    c.phase.Evicting? && c.phase.refused == [] ==> forall id :: id in Exposed(u, c) ==> id in c.phase.pending
  }

  lemma TaintedStepKeepsPending(u: Setup, c: Cluster, a: Action)
    requires Sound(c) && u.nodeName != "" && PodsOk(c) && Enabled(u, c, a)
    requires HasDegraded(Current(c).taints) && PendingOk(u, c)
    ensures PendingOk(u, Apply(u, c, a)) && PodsOk(Apply(u, c, a))
  {
    ExposureNeverGrows(u, c, a);
    match a
    case List(items, fails) => ListingFindsExposed(u, c, items);
    case Evict(refuse) =>
      if c.phase.refused == [] {
        EvictShrinks(u, c, refuse);
      }
    case _ =>
  }

  lemma {:induction false} TaintedRunKeepsPending(u: Setup, c: Cluster, actions: seq<Action>)
    requires Sound(c) && u.nodeName != "" && PodsOk(c) && CanRun(u, c, actions)
    requires TaintedThroughout(u, c, actions) && PendingOk(u, c)
    ensures PendingOk(u, Run(u, c, actions))
    decreases |actions|
  {
    if actions != [] {
      TaintedStepKeepsPending(u, c, actions[0]);
      TaintedRunKeepsPending(u, Apply(u, c, actions[0]), actions[1..]);
    }
  }

  /** The taint only has to be there while the pass lists and evicts: whatever others did to it before, a
      pass that stays tainted from its listing to its end and has no refused eviction empties the node. */
  lemma TaintedPassEmptiesNode(u: Setup, start: Cluster, before: seq<Action>, listing: Cluster,
                               during: seq<Action>, c: Cluster)
    requires Reached(u, start, before, listing) && listing.phase.Listing?
    requires CanRun(u, listing, during) && TaintedThroughout(u, listing, during) && c == Run(u, listing, during)
    requires Enabled(u, c, Return) && c.phase.refused == []
    ensures Exposed(u, c) == {}
    ensures forall id :: id in c.pods && c.pods[id].nodeName == u.nodeName ==> MayStay(c.pods[id])
  {
    ReachedIsOk(u, start, before, listing);
    TaintedRunKeepsPending(u, listing, during);
    ExposedExactly(u, c);
  }

  /** If others leave the taint alone, it goes exactly when owned isolation is released, and it comes
      exactly when a pass on degraded evidence goes through on an untainted Node. */
  lemma TaintChangesExactly(u: Setup, c: Cluster, a: Action)
    requires Inv(u, c) && u.guarded && Enabled(u, c, a)
    ensures var d := Apply(u, c, a);
      (HasDegraded(Current(c).taints) && !HasDegraded(Current(d).taints) <==>
         a.Write? && Released(d.passes[|d.passes| - 1])) &&
      (!HasDegraded(Current(c).taints) && HasDegraded(Current(d).taints) <==>
         a.Write? && d.passes[|d.passes| - 1].ok && a.observation.state == Degraded &&
         !HasDegraded(Current(c).taints))
  {
    if a.Write? {
      var p := RecordOf(u, c, a.observation, a.refused);
      assert TrueRecord(u, c, p, a.read) by { RecordIsTrue(u, c, a.observation, a.read, a.refused); }
      RecordChangesTaint(u, c, p, a.read);
    } else {
      OthersLeaveTaint(u, c, a);
    }
  }

  lemma RecordChangesTaint(u: Setup, c: Cluster, p: PassRecord, read: int)
    requires RoundTrips(u.tf) && c.history != [] && TrueRecord(u, c, p, read)
    requires IsManaged(Current(c).annotations) ==> HasDegraded(Current(c).taints)
    ensures var d := Recorded(c, p, read);
      d.history != [] && d.passes[|d.passes| - 1] == p &&
      (HasDegraded(Current(c).taints) && !HasDegraded(Current(d).taints) <==> Released(p)) &&
      (!HasDegraded(Current(c).taints) && HasDegraded(Current(d).taints) <==>
         p.ok && p.observation.state == Degraded && !HasDegraded(Current(c).taints))
  {
    RecordedTaint(c, p, read);
    WriteChangesTaint(u, p.before, p.observation, read, p.now, p.after, p.decision);
    if Released(p) {
      ReleaseWrites(u, c, p, read);
    }
    if p.observation.state == Degraded {
      BadEvidenceIsAlwaysWritten(u.tf, p.before, p.observation, p.now, read, u.window);
    }
  }

  lemma OthersLeaveTaint(u: Setup, c: Cluster, a: Action)
    requires Sound(c) && u.guarded && Enabled(u, c, a) && !a.Write?
    ensures HasDegraded(Current(Apply(u, c, a)).taints) == HasDegraded(Current(c).taints)
  {
  }

  lemma RecordedTaint(c: Cluster, p: PassRecord, read: int)
    requires c.history != []
    ensures var d := Recorded(c, p, read);
      d.passes[|d.passes| - 1] == p && d.history != [] &&
      Current(d) == if p.ok && p.after != p.before then p.after else Current(c)
  {
  }

  lemma WriteChangesTaint(u: Setup, n: NodeView, o: Observation, read: int, now: int, after: NodeView, d: Decision)
    requires FromSource(o, read) && after == NextNode(u.tf, n, o, now, u.window)
    requires d == Decide(u.tf, n, Stamped(o, now), now, u.window)
    ensures IsManaged(n.annotations) && !d.isolate ==> !HasDegraded(after.taints)
    ensures HasDegraded(n.taints) && !HasDegraded(after.taints) ==> IsManaged(n.annotations) && !d.isolate
    ensures o.state == Degraded ==> HasDegraded(after.taints)
    ensures !HasDegraded(n.taints) && HasDegraded(after.taints) ==> IsManaged(n.annotations) || o.state == Degraded
  {
    TaintsOfNext(u.tf, n, o, now, u.window);
    ReleaseExactly(ParseState(Read(n.annotations, HealthState)), IsManaged(n.annotations),
                   AnnotationTime(u.tf, n.annotations, RecoveryStartedAt),
                   Stamped(o, now), now, EffectiveWindow(u.window));
  }

  /** Every write leaves the other taints as they were, in order, leaves "managed implies tainted", and
      does not wake the controller. */
  lemma WritesAreNarrow(u: Setup, c: Cluster, o: Observation, read: int, refused: bool)
    requires Sound(c) && Enabled(u, c, Write(o, read, refused))
    requires |Apply(u, c, Write(o, read, refused)).history| > |c.history|
    ensures var after := Current(Apply(u, c, Write(o, read, refused)));
      WithoutDegraded(after.taints) == WithoutDegraded(Current(c).taints) &&
      (IsManaged(after.annotations) ==> HasDegraded(after.taints)) &&
      !PassesFilter(Current(c).annotations, after.annotations)
  {
    NarrowWrite(u, c, RecordOf(u, c, o, refused), read);
  }

  lemma NarrowWrite(u: Setup, c: Cluster, p: PassRecord, read: int)
    requires c.history != [] && p.ok && p.after != p.before && p.before == Current(c)
    requires p.after == NextNode(u.tf, p.before, p.observation, p.now, u.window)
    ensures var after := Current(Recorded(c, p, read));
      WithoutDegraded(after.taints) == WithoutDegraded(Current(c).taints) &&
      (IsManaged(after.annotations) ==> HasDegraded(after.taints)) &&
      !PassesFilter(Current(c).annotations, after.annotations)
  {
    RecordedTaint(c, p, read);
    NarrowPass(u, p.before, p.observation, p.now, p.after);
  }

  lemma NarrowPass(u: Setup, n: NodeView, o: Observation, now: int, after: NodeView)
    requires after == NextNode(u.tf, n, o, now, u.window)
    ensures
      WithoutDegraded(after.taints) == WithoutDegraded(n.taints) &&
      (IsManaged(after.annotations) ==> HasDegraded(after.taints)) &&
      !PassesFilter(n.annotations, after.annotations)
  {
    PassTouchesOnlyItsOwn(u.tf, n, o, now, u.window);
    ManagedMeansTainted(u.tf, n, o, now, u.window);
  }

  /** Ownership over runs. While others leave the exact taint alone, the taints added minus the taints
      removed equal the change of the ownership marker, and a taint that was there first is neither
      claimed nor removed. */
  lemma OwnershipOverRuns(u: Setup, start: Cluster, actions: seq<Action>, c: Cluster)
    requires Reached(u, start, actions, c) && u.guarded
    ensures Added(c.passes) - Removed(c.passes) == if IsManaged(Current(c).annotations) then 1 else 0
    ensures HasDegraded(start.history[0].taints) ==>
      HasDegraded(Current(c).taints) && !IsManaged(Current(c).annotations) && Removed(c.passes) == 0
    ensures !HasDegraded(start.history[0].taints) ==>
      (HasDegraded(Current(c).taints) <==> IsManaged(Current(c).annotations))
  {
    ReachedIsOk(u, start, actions, c);
    VersionsStay(u, start, actions);
  }

  lemma {:induction false} VersionsStay(u: Setup, c: Cluster, actions: seq<Action>)
    requires Sound(c) && CanRun(u, c, actions)
    ensures c.history <= Run(u, c, actions).history
    decreases |actions|
  {
    if actions != [] {
      ApplyIsSound(u, c, actions[0]);
      VersionsStay(u, Apply(u, c, actions[0]), actions[1..]);
    }
  }
}
