/** The controller inside a cluster, as a state machine of atomic steps: reading the Node from a cache
    that may lag behind, a version-checked write, listing pods, single evictions, and everything other
    actors do in between. */
module Cluster {
  import opened Options
  import opened Health
  import opened Nodes
  import opened Pods
  import opened Reconciler

  /** `guarded` says that other actors leave the exact degraded taint alone. */
  datatype Setup = Setup(tf: TimeFormat, nodeName: string, window: int, guarded: bool)

  /** What the controller is doing. After the write of a degraded pass it lists and evicts; `written`
      is the stored version that pass wrote, if it wrote one. */
  datatype Phase =
    | Idle
    | Fetched(version: nat, now: int)
    | Listing(written: Option<nat>)
    | Evicting(written: Option<nat>, pending: seq<PodId>, refused: seq<PodId>)

  /** A finished pass: when, on what evidence, from which Node, whether its write (if any) succeeded. */
  datatype PassRecord = PassRecord(
    now: int,
    observation: Observation,
    before: NodeView,
    after: NodeView,
    decision: Decision,
    ok: bool
  )

  /** `history` holds the stored versions of the Node, the last one current; `clock` the last time read;
      `passes` the record of all passes. */
  datatype Cluster = Cluster(
    history: seq<NodeView>,
    pods: map<PodId, Pod>,
    clock: int,
    phase: Phase,
    passes: seq<PassRecord>
  )

  datatype Action =
    | Get(version: nat, now: int)
    | Write(observation: Observation, read: int, refused: bool)
    | List(items: seq<Pod>, fails: bool)
    | Evict(refuse: bool)
    | Return
    | Bind(id: PodId, node: string)
    | Create(pod: Pod)
    | Progress(id: PodId, to: PodPhase, terminating: bool)
    | Delete(id: PodId)
    | Edit(view: NodeView)

  function Current(c: Cluster): NodeView
    requires c.history != []
  {
    c.history[|c.history| - 1]
  }

  /** Other actors do not touch the controller's own keys. */
  predicate KeepsOwnKeys(before: Annotations, after: Annotations) {
    forall k :: k in OWN_KEYS ==> (k in before <==> k in after) && (k in before ==> before[k] == after[k])
  }

  /** What listing returns: every pod once. */
  ghost predicate IsListing(pods: map<PodId, Pod>, items: seq<Pod>) {
    DistinctIds(items) &&
    (forall p :: p in items ==> p.id in pods && pods[p.id] == p) &&
    (forall id :: id in pods ==> pods[id] in items)
  }

  /** A fresh Node that the controller has never touched; any taints and foreign annotations. */
  predicate Init(c: Cluster) {
    |c.history| == 1 && c.passes == [] && c.phase == Idle &&
    (forall k :: k in OWN_KEYS ==> k !in c.history[0].annotations) &&
    forall id :: id in c.pods ==> c.pods[id].id == id
  }

  ghost predicate Enabled(u: Setup, c: Cluster, a: Action)
    requires c.history != []
  {
    match a
    case Get(version, now) => c.phase.Idle? && version < |c.history| && now > c.clock
    case Write(o, read, refused) => c.phase.Fetched? && read > c.clock && FromSource(o, read)
    case List(items, fails) => c.phase.Listing? && IsListing(c.pods, items)
    case Evict(refuse) => c.phase.Evicting? && c.phase.pending != []
    case Return => c.phase.Evicting? && c.phase.pending == []
    case Bind(id, node) =>
      id in c.pods && c.pods[id].nodeName == "" &&
      (node == u.nodeName ==> !HasDegraded(Current(c).taints) || c.pods[id].tolerates)
    case Create(pod) =>
      pod.id !in c.pods &&
      (pod.nodeName == u.nodeName ==> !HasDegraded(Current(c).taints) || pod.tolerates)
    case Progress(id, to, terminating) =>
      id in c.pods && (c.pods[id].terminating ==> terminating) &&
      (c.pods[id].phase.Succeeded? || c.pods[id].phase.Failed? ==> to == c.pods[id].phase)
    case Delete(id) => id in c.pods
    case Edit(view) =>
      KeepsOwnKeys(Current(c).annotations, view.annotations) &&
      (u.guarded ==> (HasDegraded(view.taints) <==> HasDegraded(Current(c).taints)))
  }

  /** The pass that writes now: what it read, what it wants, and whether the API server takes it. */
  function RecordOf(u: Setup, c: Cluster, o: Observation, refused: bool): PassRecord
    requires c.phase.Fetched? && c.phase.version < |c.history|
  {
    var before := c.history[c.phase.version];
    var now := c.phase.now;
    var after := NextNode(u.tf, before, o, now, u.window);
    var ok := after == before || (!refused && c.phase.version + 1 == |c.history|);
    PassRecord(now, o, before, after, Decide(u.tf, before, Stamped(o, now), now, u.window), ok)
  }

  /** What a finished pass does to the cluster. */
  function Recorded(c: Cluster, p: PassRecord, read: int): Cluster {
    var wrote := p.ok && p.after != p.before;
    var next := c.(
      clock := read,
      passes := c.passes + [p],
      history := if wrote then c.history + [p.after] else c.history);
    if p.ok && p.decision.state == Degraded then
      next.(phase := Listing(if wrote then Some(|c.history|) else None))
    else next.(phase := Idle)
  }

  function ApplyEvict(c: Cluster, refuse: bool): Cluster
    requires c.phase.Evicting? && c.phase.pending != []
  {
    var id, rest := c.phase.pending[0], c.phase.pending[1..];
    if id !in c.pods then c.(phase := c.phase.(pending := rest))
    else if refuse then c.(phase := c.phase.(pending := rest, refused := c.phase.refused + [id]))
    else c.(pods := c.pods[id := c.pods[id].(terminating := true)], phase := c.phase.(pending := rest))
  }

  ghost function Apply(u: Setup, c: Cluster, a: Action): Cluster
    requires c.history != [] && Enabled(u, c, a)
    requires c.phase.Fetched? ==> c.phase.version < |c.history|
  {
    match a
    case Get(version, now) => c.(phase := Fetched(version, now), clock := now)
    case Write(o, read, refused) => Recorded(c, RecordOf(u, c, o, refused), read)
    case List(items, fails) =>
      if fails then c.(phase := Idle)
      else c.(phase := Evicting(c.phase.written, Targets(items, u.nodeName), []))
    case Evict(refuse) => ApplyEvict(c, refuse)
    case Return => c.(phase := Idle)
    case Bind(id, node) => c.(pods := c.pods[id := c.pods[id].(nodeName := node)])
    case Create(pod) => c.(pods := c.pods[pod.id := pod])
    case Progress(id, to, terminating) =>
      c.(pods := c.pods[id := c.pods[id].(phase := to, terminating := terminating)])
    case Delete(id) => c.(pods := c.pods - {id})
    case Edit(view) => c.(history := c.history + [view])
  }

  ghost predicate Sound(c: Cluster) {
    c.history != [] && (c.phase.Fetched? ==> c.phase.version < |c.history|)
  }

  lemma ApplyIsSound(u: Setup, c: Cluster, a: Action)
    requires Sound(c) && Enabled(u, c, a)
    ensures Sound(Apply(u, c, a))
    ensures |Apply(u, c, a).history| >= |c.history| && Apply(u, c, a).history[..|c.history|] == c.history
    ensures |Apply(u, c, a).passes| >= |c.passes| && Apply(u, c, a).passes[..|c.passes|] == c.passes
  {
  }

  ghost predicate CanRun(u: Setup, c: Cluster, actions: seq<Action>)
    requires Sound(c)
    decreases |actions|
  {
    actions == [] ||
    (Enabled(u, c, actions[0]) && Sound(Apply(u, c, actions[0])) &&
     CanRun(u, Apply(u, c, actions[0]), actions[1..]))
  }

  ghost function Run(u: Setup, c: Cluster, actions: seq<Action>): (d: Cluster)
    requires Sound(c) && CanRun(u, c, actions)
    ensures Sound(d)
    decreases |actions|
  {
    if actions == [] then c else Run(u, Apply(u, c, actions[0]), actions[1..])
  }

  /** The pods on the node that must go and cannot come back while the taint is there. */
  ghost function Exposed(u: Setup, c: Cluster): set<PodId> {
    set id | id in c.pods && IsImpacted(c.pods[id], u.nodeName) && !c.pods[id].tolerates
  }
}
