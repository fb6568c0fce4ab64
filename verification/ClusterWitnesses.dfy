/** Runs that show where the controller's promises stop: one that gives up isolation although evidence was
    missing inside the window, and one in which a pass after the window frees nobody. */
module ClusterWitnesses {
  import opened Options
  import opened Strings
  import opened Health
  import opened Nodes
  import opened Reconciler
  import opened Cluster
  import opened ClusterTheorems
  import opened BoundedRecovery
  import opened HealthSources
  import opened PassRefinement
  import opened RecoveryPasses

  lemma {:induction false} AnnotatedInTwo(u: Setup, c: Cluster, first: seq<Action>, second: seq<Action>)
    requires Sound(c) && CanRun(u, c, first) && CanRun(u, Run(u, c, first), second)
    requires AllFromAnnotations(u, c, first) && AllFromAnnotations(u, Run(u, c, first), second)
    ensures CanRun(u, c, first + second) && AllFromAnnotations(u, c, first + second)
    decreases |first|
  {
    RunInTwo(u, c, first, second);
    if first == [] {
      assert first + second == second;
    } else {
      var t, both := Apply(u, c, first[0]), first + second;
      assert both[0] == first[0] && both[1..] == first[1..] + second;
      AnnotatedInTwo(u, t, first[1..], second);
    }
  }

  /** Where the evidence of a pass comes from. */
  lemma PassEvidence(u: Setup, c: Cluster, version: nat, now: int, o: Observation, read: int, refused: bool)
    requires Sound(c) && c.phase.Idle? && version < |c.history| && c.clock < now < read && FromSource(o, read)
    ensures var actions := [Get(version, now), Write(o, read, refused)];
      CanRun(u, c, actions) && (FromMetrics(o, read) ==> AllMetric(actions)) &&
      (o == ObserveAnnotations(u.tf, c.history[version].annotations, read) ==> AllFromAnnotations(u, c, actions))
  {
    var actions := [Get(version, now), Write(o, read, refused)];
    var fetched := Fetching(c, version, now);
    PassRuns(u, c, version, now, o, read, refused);
    assert Apply(u, c, actions[0]) == fetched && actions[1..] == [Write(o, read, refused)] && actions[1..][1..] == [];
    assert AllFromAnnotations(u, Apply(u, fetched, actions[1]), []);
    if o == ObserveAnnotations(u.tf, c.history[version].annotations, read) {
      assert AllFromAnnotations(u, fetched, actions[1..]);
    }
  }

  /** What a pass on the current Node records if it wants to change it, and what is left. */
  lemma PassRecorded(u: Setup, c: Cluster, now: int, o: Observation, refused: bool, next: NodeView, d: Decision)
    requires Sound(c) && next == NextNode(u.tf, Current(c), o, now, u.window) && next != Current(c)
    requires d == Decide(u.tf, Current(c), Stamped(o, now), now, u.window)
    ensures RecordOf(u, Fetching(c, |c.history| - 1, now), o, refused) ==
      PassRecord(now, o, Current(c), next, d, !refused)
  {
    var fetched := Fetching(c, |c.history| - 1, now);
    assert fetched.history[fetched.phase.version] == Current(c) && fetched.phase.now == now;
    var p := RecordOf(u, fetched, o, refused);
    assert p.before == Current(c) && p.after == next && p.decision == d && p.now == now && p.observation == o;
    assert p.ok == !refused;
  }

  lemma PassResult(c: Cluster, p: PassRecord, version: nat, read: int)
    requires p.after != p.before && p.decision.state != Degraded
    ensures Recorded(Fetching(c, version, p.now), p, read) ==
      Cluster(if p.ok then c.history + [p.after] else c.history, c.pods, read, Idle, c.passes + [p])
  {
  }

  lemma ListingFails(u: Setup, c: Cluster)
    requires Sound(c) && c.phase.Listing? && c.pods == map[]
    ensures CanRun(u, c, [List([], true)]) && Run(u, c, [List([], true)]) == c.(phase := Idle)
    ensures AllFromAnnotations(u, c, [List([], true)])
  {
    var list := [List([], true)];
    assert list[1..] == [] && CanRun(u, c.(phase := Idle), []) && AllFromAnnotations(u, c.(phase := Idle), []);
  }

  lemma IsolatingPass(u: Setup, c: Cluster, o: Observation, p: PassRecord)
    requires Sound(c) && c.phase.Idle? && o.state == Degraded && o.observedAt == c.clock + 2
    requires p.after == NextNode(u.tf, Current(c), o, c.clock + 1, u.window) && p.after != Current(c)
    requires p == PassRecord(c.clock + 1, o, Current(c), p.after,
                             Decide(u.tf, Current(c), Stamped(o, c.clock + 1), c.clock + 1, u.window), true)
    ensures var pass := [Get(|c.history| - 1, c.clock + 1), Write(o, c.clock + 2, false)];
      CanRun(u, c, pass) &&
      Run(u, c, pass) == Cluster(c.history + [p.after], c.pods, c.clock + 2, Listing(Some(|c.history|)), c.passes + [p])
  {
    var version := |c.history| - 1;
    PassRecorded(u, c, c.clock + 1, o, false, p.after, p.decision);
    DegradedResult(c, p, version, c.clock + 2);
    PassRuns(u, c, version, c.clock + 1, o, c.clock + 2, false);
  }

  lemma DegradedResult(c: Cluster, p: PassRecord, version: nat, read: int)
    requires p.after != p.before && p.ok && p.decision.state == Degraded
    ensures Recorded(Fetching(c, version, p.now), p, read) ==
      Cluster(c.history + [p.after], c.pods, read, Listing(Some(|c.history|)), c.passes + [p])
  {
  }

  /** The Node is isolated and listing the pods fails. */
  lemma FirstPass(u: Setup, c: Cluster, o: Observation, next: NodeView, d: Decision) returns (actions: seq<Action>)
    requires Sound(c) && c.phase.Idle? && c.pods == map[] && o.state == Degraded && o.observedAt == c.clock + 2
    requires next == NextNode(u.tf, Current(c), o, c.clock + 1, u.window) && next != Current(c)
    requires d == Decide(u.tf, Current(c), Stamped(o, c.clock + 1), c.clock + 1, u.window)
    ensures CanRun(u, c, actions)
    ensures Run(u, c, actions) == Cluster(c.history + [next], map[], c.clock + 2, Idle,
                                          c.passes + [PassRecord(c.clock + 1, o, Current(c), next, d, true)])
    ensures AllMetric(actions)
    ensures o == ObserveAnnotations(u.tf, Current(c).annotations, c.clock + 2) ==> AllFromAnnotations(u, c, actions)
  {
    var pass := [Get(|c.history| - 1, c.clock + 1), Write(o, c.clock + 2, false)];
    IsolatingPass(u, c, o, PassRecord(c.clock + 1, o, Current(c), next, d, true));
    PassEvidence(u, c, |c.history| - 1, c.clock + 1, o, c.clock + 2, false);
    ListingFails(u, Run(u, c, pass));
    RunInTwo(u, c, pass, [List([], true)]);
    if o == ObserveAnnotations(u.tf, Current(c).annotations, c.clock + 2) {
      AnnotatedInTwo(u, c, pass, [List([], true)]);
    }
    actions := pass + [List([], true)];
  }

  lemma LaterPass(u: Setup, c: Cluster, now: int, o: Observation, read: int, refused: bool, next: NodeView,
                  d: Decision) returns (actions: seq<Action>)
    requires Sound(c) && c.phase.Idle? && c.clock < now < read && FromSource(o, read)
    requires next == NextNode(u.tf, Current(c), o, now, u.window) && next != Current(c)
    requires d == Decide(u.tf, Current(c), Stamped(o, now), now, u.window) && d.state != Degraded
    ensures CanRun(u, c, actions)
    ensures Run(u, c, actions) ==
      Cluster(if refused then c.history else c.history + [next], c.pods, read, Idle,
              c.passes + [PassRecord(now, o, Current(c), next, d, !refused)])
    ensures FromMetrics(o, read) ==> AllMetric(actions)
    ensures o == ObserveAnnotations(u.tf, Current(c).annotations, read) ==> AllFromAnnotations(u, c, actions)
  {
    PassRuns(u, c, |c.history| - 1, now, o, read, refused);
    PassEvidence(u, c, |c.history| - 1, now, o, read, refused);
    PassRecorded(u, c, now, o, refused, next, d);
    PassResult(c, PassRecord(now, o, Current(c), next, d, !refused), |c.history| - 1, read);
    actions := [Get(|c.history| - 1, now), Write(o, read, refused)];
  }

  lemma FreshIsIsolated(tf: TimeFormat, n: NodeView, bad: Observation, now: int, window: int, next: NodeView)
    requires bad.state == Degraded && !HasDegraded(n.taints) && next == NextNode(tf, n, bad, now, window)
    ensures next != n && IsManaged(next.annotations) && ParseState(Read(next.annotations, HealthState)) == Degraded
  {
    NextNodeReads(tf, n, bad, now, window);
    StateRoundTrip(Degraded);
  }

  lemma IsolatedRecovers(tf: TimeFormat, n: NodeView, good: Observation, now: int, window: int, next: NodeView)
    requires RoundTrips(tf) && good.state == Healthy && next == NextNode(tf, n, good, now, window)
    requires IsManaged(n.annotations) && ParseState(Read(n.annotations, HealthState)) == Degraded
    ensures next != n && RecoveringSince(tf, next, now)
    ensures Decide(tf, n, Stamped(good, now), now, window).state == Recovering
  {
    StartsRecovering(tf, n, good, now, window);
  }

  lemma MissingChanges(tf: TimeFormat, n: NodeView, none: Observation, now: int, window: int, next: NodeView)
    requires none.state == Unknown && next == NextNode(tf, n, none, now, window)
    requires ParseState(Read(n.annotations, HealthState)) == Recovering
    ensures next != n && Decide(tf, n, Stamped(none, now), now, window).state == Unknown
  {
    NextNodeReads(tf, n, none, now, window);
    StateRoundTrip(Unknown);
  }

  lemma RecoveringIsReleased(tf: TimeFormat, n: NodeView, good: Observation, s: int, now: int, window: int,
                             next: NodeView)
    requires RoundTrips(tf) && RecoveringSince(tf, n, s) && good.state == Healthy
    requires now >= s + EffectiveWindow(window) && next == NextNode(tf, n, good, now, window)
    ensures next != n && IsManaged(n.annotations)
    ensures Decide(tf, n, Stamped(good, now), now, window) == Decision(Healthy, false, None)
  {
    Releases(tf, n, good, s, now, window);
  }

  /** An owned node is recovering: one degraded pass, then one healthy one at `t + 3`. */
  lemma StartRecovery(u: Setup, start: Cluster) returns (actions: seq<Action>, c: Cluster)
    requires RoundTrips(u.tf) && Sound(start) && start.phase.Idle? && start.pods == map[]
    requires !HasDegraded(Current(start).taints)
    ensures CanRun(u, start, actions) && c == Run(u, start, actions) && AllMetric(actions)
    ensures c.phase.Idle? && c.clock == start.clock + 4 && |c.passes| == |start.passes| + 2
    ensures RecoveringSince(u.tf, Current(c), start.clock + 3)
    ensures c.passes[|c.passes| - 1].now == start.clock + 3
  {
    var tf, window, t := u.tf, u.window, start.clock;
    var bad, good := Observation(Degraded, "", "", "", t + 2), Observation(Healthy, "", "", "", t + 4);
    var n0 := Current(start);
    var n1, d1 := NextNode(tf, n0, bad, t + 1, window), Decide(tf, n0, Stamped(bad, t + 1), t + 1, window);
    FreshIsIsolated(tf, n0, bad, t + 1, window, n1);
    var first := FirstPass(u, start, bad, n1, d1);
    var c1 := Run(u, start, first);
    assert Current(c1) == n1;
    var n2, d2 := NextNode(tf, n1, good, t + 3, window), Decide(tf, n1, Stamped(good, t + 3), t + 3, window);
    IsolatedRecovers(tf, n1, good, t + 3, window, n2);
    var second := LaterPass(u, c1, t + 3, good, t + 4, false, n2, d2);
    RunInTwo(u, start, first, second);
    actions, c := first + second, Run(u, c1, second);
    assert Current(c) == n2;
  }

  /** A pass without evidence fails to write. */
  lemma MissedPass(u: Setup, c: Cluster, s: int) returns (actions: seq<Action>, d: Cluster)
    requires RoundTrips(u.tf) && Sound(c) && c.phase.Idle? && c.clock == s + 1
    requires RecoveringSince(u.tf, Current(c), s)
    ensures CanRun(u, c, actions) && d == Run(u, c, actions) && AllMetric(actions)
    ensures d.history == c.history && d.phase.Idle? && d.clock == s + 3
    ensures |d.passes| == |c.passes| + 1 && d.passes[..|c.passes|] == c.passes
    ensures var missed := d.passes[|c.passes|];
      !missed.ok && missed.observation.state == Unknown && missed.now == s + 2
  {
    var n, none := Current(c), Observation(Unknown, "", "", "", s + 3);
    var next, decision := NextNode(u.tf, n, none, s + 2, u.window),
                          Decide(u.tf, n, Stamped(none, s + 2), s + 2, u.window);
    MissingChanges(u.tf, n, none, s + 2, u.window, next);
    actions := LaterPass(u, c, s + 2, none, s + 3, true, next, decision);
    d := Run(u, c, actions);
  }

  /** A healthy pass at the end of the window releases the node. */
  lemma ReleasingPass(u: Setup, c: Cluster, s: int) returns (actions: seq<Action>, d: Cluster)
    requires RoundTrips(u.tf) && Sound(c) && c.phase.Idle? && c.clock == s + 3
    requires RecoveringSince(u.tf, Current(c), s) && EffectiveWindow(u.window) >= 4
    ensures CanRun(u, c, actions) && d == Run(u, c, actions) && AllMetric(actions)
    ensures |d.passes| == |c.passes| + 1 && d.passes[..|c.passes|] == c.passes
    ensures Released(d.passes[|c.passes|]) && d.passes[|c.passes|].now == s + EffectiveWindow(u.window)
  {
    var n, end := Current(c), s + EffectiveWindow(u.window);
    var good := Observation(Healthy, "", "", "", end + 1);
    var next, decision := NextNode(u.tf, n, good, end, u.window),
                          Decide(u.tf, n, Stamped(good, end), end, u.window);
    RecoveringIsReleased(u.tf, n, good, s, end, u.window, next);
    actions := LaterPass(u, c, end, good, end + 1, false, next, decision);
    d := Run(u, c, actions);
  }

  /** The concrete run on metric evidence, from any fresh untainted Node, for any window of at least four
      ticks and any time format: a degraded pass isolates the node, a healthy one starts its recovery, a pass that
      finds no evidence fails to write, and a healthy pass at the end of the window releases the node,
      although no stretch of a window's length with healthy evidence only has led up to it. */
  lemma ReleasedDespiteMissingEvidence(u: Setup, start: Cluster) returns (actions: seq<Action>, c: Cluster)
    requires RoundTrips(u.tf) && u.nodeName != "" && EffectiveWindow(u.window) >= 4
    requires Init(start) && start.pods == map[] && !HasDegraded(start.history[0].taints)
    ensures Reached(u, start, actions, c) && AllMetric(actions)
    ensures |c.passes| == 4 && Released(c.passes[3])
    ensures !c.passes[2].ok && c.passes[2].observation.state == Unknown
    ensures c.passes[1].now < c.passes[2].now < c.passes[3].now == c.passes[1].now + EffectiveWindow(u.window)
    ensures forall j: nat :: !HealthyStretch(u, c.passes, j, 3)
  {
    var first, middle := StartRecovery(u, start);
    var second, late := MissedPass(u, middle, start.clock + 3);
    RunInTwo(u, start, first, second);
    var third, end := ReleasingPass(u, late, start.clock + 3);
    RunInTwo(u, start, first + second, third);
    actions, c := first + second + third, end;
    assert c.passes[2] == late.passes[2] && c.passes[1] == late.passes[1] == middle.passes[1];
    assert forall j: nat :: HealthyStretch(u, c.passes, j, 3) ==> j == 3;
  }

  /** A Node that is not owned and has healthy evidence with its own time on record is left alone. */
  lemma HealthyPassRepeats(tf: TimeFormat, n: NodeView, good: Observation, now: int, later: int, window: int,
                           next: NodeView)
    requires good.state == Healthy && good.observedAt != ZERO_TIME && !IsManaged(n.annotations)
    requires next == NextNode(tf, n, good, now, window)
    ensures Decide(tf, n, good, now, window) == Decision(Healthy, false, None)
    ensures !IsManaged(next.annotations) && next.taints == n.taints
    ensures Read(next.annotations, HealthState) == "healthy"
    ensures NextNode(tf, next, good, later, window) == next
    ensures Decide(tf, next, good, later, window) == Decision(Healthy, false, None)
  {
    NextNodeReads(tf, n, good, now, window);
    HealthAnnotationsStable(tf, next.annotations, Decision(Healthy, false, None), good);
  }

  /** The Node is free, and healthy evidence `good` leaves it as it is, whenever it comes. */
  ghost predicate SettledOn(u: Setup, n: NodeView, good: Observation) {
    !IsManaged(n.annotations) && forall now ::
      NextNode(u.tf, n, good, now, u.window) == n && Decide(u.tf, n, good, now, u.window).state == Healthy
  }

  lemma FreshSettles(u: Setup, n: NodeView, good: Observation, now: int, next: NodeView)
    requires HealthState !in n.annotations && Managed !in n.annotations
    requires good.state == Healthy && good.observedAt != ZERO_TIME && next == NextNode(u.tf, n, good, now, u.window)
    ensures next != n && next.taints == n.taints && SettledOn(u, next, good)
    ensures Decide(u.tf, n, good, now, u.window).state == Healthy
  {
    forall later: int
      ensures !IsManaged(next.annotations) && next.taints == n.taints
      ensures Read(next.annotations, HealthState) == "healthy"
      ensures NextNode(u.tf, next, good, later, u.window) == next
      ensures Decide(u.tf, next, good, later, u.window).state == Healthy
      ensures Decide(u.tf, n, good, now, u.window).state == Healthy
    {
      HealthyPassRepeats(u.tf, n, good, now, later, u.window, next);
    }
    assert Read(next.annotations, HealthState) != Read(n.annotations, HealthState);
  }

  /** What the annotation source answers of a Node whose health was confirmed at time 0. */
  const CONFIRMED: Observation := Observation(Healthy, "synthetic-annotation", "recovery-confirmed", "", 0)

  /** Health is confirmed on this Node, and `fault` injected, if not empty. */
  predicate Annotated(tf: TimeFormat, n: NodeView, fault: string) {
    Read(n.annotations, InjectedFault) == fault && Read(n.annotations, InjectedFaultDevice) == "" &&
    Read(n.annotations, RecoveryConfirmed) == tf.format(0)
  }

  lemma AnsweredConfirmed(tf: TimeFormat, n: NodeView, read: int)
    requires RoundTrips(tf) && Annotated(tf, n, "")
    ensures ObserveAnnotations(tf, n.annotations, read) == CONFIRMED
  {
    assert TrimSpace("") == "" && ReadTime(tf, tf.format(0)) == Some(0);
  }

  lemma AnsweredFault(tf: TimeFormat, n: NodeView, read: int)
    requires Annotated(tf, n, "xid")
    ensures ObserveAnnotations(tf, n.annotations, read) ==
      Observation(Degraded, "synthetic-annotation", "xid", "", read)
  {
    assert TrimSpace("") == "" && TrimSpace("xid") == "xid";
  }

  /** A pass leaves what others have annotated. */
  lemma PassKeepsAnnotated(u: Setup, n: NodeView, o: Observation, now: int, fault: string)
    requires Annotated(u.tf, n, fault)
    ensures Annotated(u.tf, NextNode(u.tf, n, o, now, u.window), fault)
  {
    NextNodeReads(u.tf, n, o, now, u.window);
    assert InjectedFault !in OWN_KEYS && InjectedFaultDevice !in OWN_KEYS && RecoveryConfirmed !in OWN_KEYS;
  }

  /** Somebody sets or clears an annotation that is not the controller's. */
  lemma EditRuns(u: Setup, c: Cluster, view: NodeView)
    requires Sound(c) && Enabled(u, c, Edit(view))
    ensures CanRun(u, c, [Edit(view)]) && AllFromAnnotations(u, c, [Edit(view)])
    ensures Run(u, c, [Edit(view)]) == c.(history := c.history + [view])
  {
    var actions, d := [Edit(view)], c.(history := c.history + [view]);
    assert actions[1..] == [] && Apply(u, c, actions[0]) == d;
    assert CanRun(u, d, []) && Run(u, d, []) == d && AllFromAnnotations(u, d, []);
  }

  /** The three edits of the witness. */
  function Confirm(tf: TimeFormat, n: NodeView): NodeView {
    n.(annotations := n.annotations[RecoveryConfirmed := tf.format(0)])
  }

  function Inject(n: NodeView): NodeView {
    n.(annotations := n.annotations[InjectedFault := "xid"])
  }

  function Clear(n: NodeView): NodeView {
    n.(annotations := n.annotations - {InjectedFault})
  }

  lemma EditsAreForeign(tf: TimeFormat, n: NodeView, view: NodeView)
    requires view in {Confirm(tf, n), Inject(n), Clear(n)}
    ensures KeepsOwnKeys(n.annotations, view.annotations) && view.taints == n.taints
    ensures IsManaged(view.annotations) == IsManaged(n.annotations)
    ensures Read(view.annotations, HealthState) == Read(n.annotations, HealthState)
    ensures HealthState in n.annotations <==> HealthState in view.annotations
    ensures Managed in n.annotations <==> Managed in view.annotations
  {
    assert RecoveryConfirmed !in OWN_KEYS && InjectedFault !in OWN_KEYS;
    assert Managed in OWN_KEYS && HealthState in OWN_KEYS;
  }

  /** A state reached by a run on evidence of the annotation source. */
  ghost predicate AnnotatedRun(u: Setup, start: Cluster, actions: seq<Action>, c: Cluster) {
    Sound(start) && CanRun(u, start, actions) && c == Run(u, start, actions) && AllFromAnnotations(u, start, actions)
  }

  lemma AnnotatedRunGoesOn(u: Setup, start: Cluster, first: seq<Action>, c: Cluster, second: seq<Action>, d: Cluster)
    requires AnnotatedRun(u, start, first, c) && AnnotatedRun(u, c, second, d)
    ensures AnnotatedRun(u, start, first + second, d) && c.history <= d.history
  {
    RunInTwo(u, start, first, second);
    AnnotatedInTwo(u, start, first, second);
    VersionsStay(u, c, second);
  }

  lemma ConfirmingEdit(u: Setup, start: Cluster) returns (c: Cluster)
    requires RoundTrips(u.tf) && Init(start)
    requires forall k :: k in WATCHED_KEYS ==> k !in start.history[0].annotations
    ensures |c.history| == 2 && c == start.(history := c.history)
    ensures AnnotatedRun(u, start, [Edit(Current(c))], c) && Annotated(u.tf, Current(c), "")
    ensures HealthState !in Current(c).annotations && Managed !in Current(c).annotations
    ensures Current(c).taints == start.history[0].taints
  {
    var view := Confirm(u.tf, Current(start));
    assert HealthState in OWN_KEYS && Managed in OWN_KEYS;
    EditsAreForeign(u.tf, Current(start), view);
    EditRuns(u, start, view);
    c := Run(u, start, [Edit(view)]);
  }

  /** Health is confirmed on a fresh Node, and a pass reports it; that version stays stored. */
  lemma SettlingPass(u: Setup, start: Cluster) returns (actions: seq<Action>, c: Cluster)
    requires RoundTrips(u.tf) && Init(start) && start.pods == map[]
    requires forall k :: k in WATCHED_KEYS ==> k !in start.history[0].annotations
    ensures AnnotatedRun(u, start, actions, c)
    ensures c.phase.Idle? && c.pods == map[] && |c.passes| == 1 && |c.history| == 3
    ensures Current(c).taints == start.history[0].taints && Annotated(u.tf, Current(c), "")
    ensures SettledOn(u, Current(c), CONFIRMED)
  {
    var c1 := ConfirmingEdit(u, start);
    var t, view := start.clock + 1, Current(c1);
    var next, d := NextNode(u.tf, view, CONFIRMED, t, u.window), Decide(u.tf, view, Stamped(CONFIRMED, t), t, u.window);
    FreshSettles(u, view, CONFIRMED, t, next);
    AnsweredConfirmed(u.tf, view, t + 1);
    PassKeepsAnnotated(u, view, CONFIRMED, t, "");
    var pass := LaterPass(u, c1, t, CONFIRMED, t + 1, false, next, d);
    c := Run(u, c1, pass);
    AnnotatedRunGoesOn(u, start, [Edit(view)], c1, pass, c);
    actions := [Edit(view)] + pass;
  }

  /** A fault is injected, and the node isolated. */
  lemma FaultPass(u: Setup, c: Cluster) returns (actions: seq<Action>, d: Cluster)
    requires RoundTrips(u.tf) && Sound(c) && c.phase.Idle? && c.pods == map[]
    requires Annotated(u.tf, Current(c), "") && !HasDegraded(Current(c).taints)
    ensures AnnotatedRun(u, c, actions, d)
    ensures d.phase.Idle? && d.pods == map[] && |d.passes| == |c.passes| + 1
    ensures Annotated(u.tf, Current(d), "xid") && IsManaged(Current(d).annotations)
    ensures ParseState(Read(Current(d).annotations, HealthState)) == Degraded
  {
    var view := Inject(Current(c));
    EditsAreForeign(u.tf, Current(c), view);
    EditRuns(u, c, view);
    var c1 := Run(u, c, [Edit(view)]);
    assert Current(c1) == view && Annotated(u.tf, view, "xid");
    var t, bad := c1.clock + 1, Observation(Degraded, "synthetic-annotation", "xid", "", c1.clock + 2);
    var next, decision := NextNode(u.tf, view, bad, t, u.window), Decide(u.tf, view, Stamped(bad, t), t, u.window);
    AnsweredFault(u.tf, view, t + 1);
    FreshIsIsolated(u.tf, view, bad, t, u.window, next);
    PassKeepsAnnotated(u, view, bad, t, "xid");
    var pass := FirstPass(u, c1, bad, next, decision);
    d := Run(u, c1, pass);
    AnnotatedRunGoesOn(u, c, [Edit(view)], c1, pass, d);
    actions := [Edit(view)] + pass;
  }

  /** The fault is cleared, and the node starts to recover at `s`. */
  lemma ClearedPass(u: Setup, c: Cluster) returns (actions: seq<Action>, d: Cluster, s: int)
    requires RoundTrips(u.tf) && Sound(c) && c.phase.Idle?
    requires Annotated(u.tf, Current(c), "xid") && IsManaged(Current(c).annotations)
    requires ParseState(Read(Current(c).annotations, HealthState)) == Degraded
    ensures AnnotatedRun(u, c, actions, d)
    ensures d.phase.Idle? && d.clock == s + 1 && |d.passes| == |c.passes| + 1 && d.passes[|c.passes|].now == s
    ensures RecoveringSince(u.tf, Current(d), s)
  {
    var view := Clear(Current(c));
    EditsAreForeign(u.tf, Current(c), view);
    EditRuns(u, c, view);
    var c1 := Run(u, c, [Edit(view)]);
    assert Current(c1) == view && Annotated(u.tf, view, "");
    s := c1.clock + 1;
    var next, decision := NextNode(u.tf, view, CONFIRMED, s, u.window),
                          Decide(u.tf, view, Stamped(CONFIRMED, s), s, u.window);
    AnsweredConfirmed(u.tf, view, s + 1);
    IsolatedRecovers(u.tf, view, CONFIRMED, s, u.window, next);
    var pass := LaterPass(u, c1, s, CONFIRMED, s + 1, false, next, decision);
    d := Run(u, c1, pass);
    AnnotatedRunGoesOn(u, c, [Edit(view)], c1, pass, d);
    actions := [Edit(view)] + pass;
  }

  /** A pass with nothing to write. */
  lemma IdlePass(u: Setup, c: Cluster, version: nat, now: int, o: Observation, read: int, n: NodeView, d: Decision)
    requires version < |c.history| && n == c.history[version] && NextNode(u.tf, n, o, now, u.window) == n
    requires d == Decide(u.tf, n, Stamped(o, now), now, u.window) && d.state != Degraded
    ensures Recorded(Fetching(c, version, now), RecordOf(u, Fetching(c, version, now), o, false), read) ==
      Cluster(c.history, c.pods, read, Idle, c.passes + [PassRecord(now, o, n, n, d, true)])
  {
    assert RecordOf(u, Fetching(c, version, now), o, false) == PassRecord(now, o, n, n, d, true);
  }

  /** A pass reads the version on which health was reported before the fault. */
  lemma StalePass(u: Setup, c: Cluster, now: int) returns (actions: seq<Action>, d: Cluster)
    requires RoundTrips(u.tf) && Sound(c) && c.phase.Idle? && c.clock < now && |c.history| > 2
    requires Annotated(u.tf, c.history[2], "") && SettledOn(u, c.history[2], CONFIRMED)
    ensures AnnotatedRun(u, c, actions, d)
    ensures d.history == c.history && |d.passes| == |c.passes| + 1 && d.passes[..|c.passes|] == c.passes
    ensures var p := d.passes[|c.passes|];
      p.ok && p.observation.state == Healthy && p.now == now && p.before == c.history[2]
  {
    var n := c.history[2];
    AnsweredConfirmed(u.tf, n, now + 1);
    PassRuns(u, c, 2, now, CONFIRMED, now + 1, false);
    PassEvidence(u, c, 2, now, CONFIRMED, now + 1, false);
    IdlePass(u, c, 2, now, CONFIRMED, now + 1, n, Decide(u.tf, n, Stamped(CONFIRMED, now), now, u.window));
    actions := [Get(2, now), Write(CONFIRMED, now + 1, false)];
    d := Run(u, c, actions);
  }

  /** The run so far: the node recovers from a fault, and version 2 is from before it. */
  lemma RecoveringAfterFault(u: Setup, start: Cluster) returns (actions: seq<Action>, c: Cluster, s: int)
    requires RoundTrips(u.tf) && Init(start) && start.pods == map[] && !HasDegraded(start.history[0].taints)
    requires forall k :: k in WATCHED_KEYS ==> k !in start.history[0].annotations
    ensures AnnotatedRun(u, start, actions, c) && c.phase.Idle? && c.clock == s + 1
    ensures |c.passes| == 3 && c.passes[2].now == s && RecoveringSince(u.tf, Current(c), s)
    ensures |c.history| > 2 && Annotated(u.tf, c.history[2], "") && SettledOn(u, c.history[2], CONFIRMED)
  {
    var a1, c1 := SettlingPass(u, start);
    var a2, c2 := FaultPass(u, c1);
    AnnotatedRunGoesOn(u, start, a1, c1, a2, c2);
    var a3;
    a3, c, s := ClearedPass(u, c2);
    AnnotatedRunGoesOn(u, start, a1 + a2, c2, a3, c);
    assert c.history[2] == c2.history[2] == Current(c1) by { VersionTwoStays(c1, c2, c); }
    actions := a1 + a2 + a3;
  }

  lemma VersionTwoStays(c: Cluster, d: Cluster, e: Cluster)
    requires |c.history| == 3 && c.history <= d.history <= e.history
    ensures e.history[2] == d.history[2] == Current(c)
  {
  }

  /** The concrete run on evidence of the annotation source, from any fresh untainted Node without such
      annotations, for any window and time format: health is confirmed, a fault injected and cleared, and
      the node has been recovering for more than a window. Then a pass goes through on healthy evidence and
      the node stays isolated: it read the version from before the fault, which has nothing to write. */
  lemma StalePassFreesNobody(u: Setup, start: Cluster) returns (actions: seq<Action>, c: Cluster)
    requires RoundTrips(u.tf) && u.nodeName != "" && Init(start) && start.pods == map[]
    requires !HasDegraded(start.history[0].taints)
    requires forall k :: k in WATCHED_KEYS ==> k !in start.history[0].annotations
    ensures Reached(u, start, actions, c) && AllFromAnnotations(u, start, actions) && |c.passes| == 4
    ensures RecoveringSince(u.tf, Current(c), c.passes[2].now)
    ensures c.passes[3].ok && c.passes[3].observation.state == Healthy
    ensures c.passes[3].now > c.passes[2].now + EffectiveWindow(u.window)
    ensures !SameRecord(c.passes[3].before, Current(c))
  {
    var first, middle, s := RecoveringAfterFault(u, start);
    var last;
    last, c := StalePass(u, middle, s + EffectiveWindow(u.window) + 2);
    AnnotatedRunGoesOn(u, start, first, middle, last, c);
    actions := first + last;
    assert c.passes[2] == middle.passes[2];
  }
}
