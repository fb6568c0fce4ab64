/** What holds in every reachable state of the cluster machine. */
module ClusterInvariant {
  import opened Options
  import opened Health
  import opened Nodes
  import opened Cluster

  /** A Node marked degraded or unknown says when, and that is earlier than `limit`. */
  ghost predicate StampOk(tf: TimeFormat, n: NodeView, limit: int) {
    Read(n.annotations, HealthState) in {"degraded", "unknown"} ==>
      exists t: int :: t < limit && Read(n.annotations, HealthObservedAt) == tf.format(t)
  }

  /** All stamps are earlier than the pass in progress, or not later than the clock. */
  ghost predicate StampsOk(u: Setup, c: Cluster) {
    forall v :: 0 <= v < |c.history| ==>
      StampOk(u.tf, c.history[v], if c.phase.Fetched? then c.phase.now else c.clock + 1)
  }

  /** Since pass `j`, at time `t0`, every pass that went through saw healthy evidence. */
  ghost predicate HealthySince(passes: seq<PassRecord>, j: nat, t0: int) {
    j < |passes| && passes[j].ok && passes[j].now == t0 &&
    forall k :: j <= k < |passes| && passes[k].ok ==> passes[k].observation.state == Healthy
  }

  /** The node is recovering exactly when a start is recorded, and the record is true. */
  ghost predicate RecoveryOk(u: Setup, n: NodeView, passes: seq<PassRecord>) {
    (RecoveryStartedAt in n.annotations <==> Read(n.annotations, HealthState) == "recovering") &&
    (RecoveryStartedAt in n.annotations ==>
       exists j: nat, t0: int ::
         Read(n.annotations, RecoveryStartedAt) == u.tf.format(t0) && HealthySince(passes, j, t0))
  }

  /** Passes that added the taint, and passes that removed it. */
  function Added(passes: seq<PassRecord>): nat {
    if passes == [] then 0
    else
      var p := passes[|passes| - 1];
      Added(passes[..|passes| - 1]) +
        if p.ok && !HasDegraded(p.before.taints) && HasDegraded(p.after.taints) then 1 else 0
  }

  function Removed(passes: seq<PassRecord>): nat {
    if passes == [] then 0
    else
      var p := passes[|passes| - 1];
      Removed(passes[..|passes| - 1]) +
        if p.ok && HasDegraded(p.before.taints) && !HasDegraded(p.after.taints) then 1 else 0
  }

  /** While others leave the taint alone, ownership and the taint go together, and a taint that was
      there first is never claimed. */
  ghost predicate OwnershipOk(u: Setup, c: Cluster)
    requires c.history != []
  {
    u.guarded ==>
      (IsManaged(Current(c).annotations) ==> HasDegraded(Current(c).taints)) &&
      (HasDegraded(c.history[0].taints) ==>
         HasDegraded(Current(c).taints) && !IsManaged(Current(c).annotations) && Removed(c.passes) == 0) &&
      (!HasDegraded(c.history[0].taints) ==>
         (HasDegraded(Current(c).taints) <==> IsManaged(Current(c).annotations))) &&
      Added(c.passes) == Removed(c.passes) + (if IsManaged(Current(c).annotations) then 1 else 0)
  }

  /** A pass that lists or evicts has just written the taint, which is there to stay. */
  ghost predicate EvictionOk(u: Setup, c: Cluster, written: Option<nat>)
    requires c.history != []
  {
    written.Some? && written.value < |c.history| && c.passes != [] &&
    var p := c.passes[|c.passes| - 1];
    p.ok && p.after != p.before && p.decision.state == Degraded && p.observation.state == Degraded &&
    c.history[written.value] == p.after && HasDegraded(p.after.taints) &&
    (u.guarded ==> HasDegraded(Current(c).taints))
  }

  ghost predicate PhaseOk(u: Setup, c: Cluster)
    requires c.history != []
  {
    match c.phase
    case Idle => true
    case Fetched(version, now) => version < |c.history| && now == c.clock
    case Listing(written) => EvictionOk(u, c, written)
    case Evicting(written, pending, refused) =>
      EvictionOk(u, c, written) &&
      (u.guarded && refused == [] ==> forall id :: id in Exposed(u, c) ==> id in pending)
  }

  predicate PodsOk(c: Cluster) {
    forall id :: id in c.pods ==> c.pods[id].id == id
  }

  ghost predicate Inv(u: Setup, c: Cluster) {
    RoundTrips(u.tf) && u.nodeName != "" && Sound(c) && StampsOk(u, c) && RecoveryOk(u, Current(c), c.passes) &&
    OwnershipOk(u, c) && PhaseOk(u, c) && PodsOk(c)
  }

  lemma InitOk(u: Setup, c: Cluster)
    requires RoundTrips(u.tf) && u.nodeName != "" && Init(c)
    ensures Inv(u, c)
  {
    assert HealthState in OWN_KEYS && RecoveryStartedAt in OWN_KEYS && Managed in OWN_KEYS;
    assert "" !in {"degraded", "unknown"};
  }
}
