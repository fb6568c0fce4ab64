/** How free everybody but the controller is in the cluster machine. */
module ClusterEnvironment {
  import opened Nodes
  import opened Pods
  import opened Cluster
  import opened ClusterTheorems
  import opened PassRefinement

  /** The same pod later: it may finish or begin to terminate, and neither is taken back. */
  predicate Progressed(pod: Pod, later: Pod) {
    later == pod.(phase := later.phase, terminating := later.terminating) &&
    (pod.terminating ==> later.terminating) &&
    (pod.phase.Succeeded? || pod.phase.Failed? ==> later.phase == pod.phase)
  }

  /** Pods the cluster can have after a while: on a tainted node a pod that does not tolerate the taint was
      there before. */
  ghost predicate MayBecome(u: Setup, c: Cluster, pods: map<PodId, Pod>)
    requires c.history != []
  {
    forall id :: id in pods ==>
      pods[id].id == id &&
      (HasDegraded(Current(c).taints) && pods[id].nodeName == u.nodeName && !pods[id].tolerates ==>
         id in c.pods && Progressed(c.pods[id], pods[id]))
  }

  /** `pods` with `id` as it is in `later`. */
  function Fixed(pods: map<PodId, Pod>, later: map<PodId, Pod>, id: PodId): map<PodId, Pod> {
    if id in later then pods[id := later[id]] else pods - {id}
  }

  lemma OneAction(u: Setup, c: Cluster, a: Action, t: Cluster)
    requires Sound(c) && Enabled(u, c, a) && Apply(u, c, a) == t && Sound(t)
    ensures CanRun(u, c, [a]) && Run(u, c, [a]) == t
  {
    assert CanRun(u, t, []) && Run(u, t, []) == t;
    FirstThenRest(u, c, a, t, []);
    assert [a] + [] == [a];
  }

  lemma CreateOne(u: Setup, c: Cluster, pods: map<PodId, Pod>, id: PodId)
    requires Sound(c) && MayBecome(u, c, pods) && id in pods && id !in c.pods
    ensures CanRun(u, c, [Create(pods[id])])
    ensures Run(u, c, [Create(pods[id])]) == c.(pods := Fixed(c.pods, pods, id))
  {
    OneAction(u, c, Create(pods[id]), c.(pods := c.pods[id := pods[id]]));
  }

  lemma DeleteOne(u: Setup, c: Cluster, id: PodId)
    requires Sound(c) && id in c.pods
    ensures CanRun(u, c, [Delete(id)]) && Run(u, c, [Delete(id)]) == c.(pods := c.pods - {id})
  {
    OneAction(u, c, Delete(id), c.(pods := c.pods - {id}));
  }

  lemma ProgressOne(u: Setup, c: Cluster, id: PodId, later: Pod)
    requires Sound(c) && id in c.pods && Progressed(c.pods[id], later)
    ensures var a := Progress(id, later.phase, later.terminating);
      CanRun(u, c, [a]) && Run(u, c, [a]) == c.(pods := c.pods[id := later])
  {
    OneAction(u, c, Progress(id, later.phase, later.terminating), c.(pods := c.pods[id := later]));
  }

  lemma ReplaceOne(u: Setup, c: Cluster, pods: map<PodId, Pod>, id: PodId) returns (actions: seq<Action>)
    requires Sound(c) && MayBecome(u, c, pods) && id in pods && id in c.pods && !Progressed(c.pods[id], pods[id])
    ensures CanRun(u, c, actions) && Run(u, c, actions) == c.(pods := Fixed(c.pods, pods, id))
  {
    var t := c.(pods := c.pods - {id});
    DeleteOne(u, c, id);
    OneAction(u, t, Create(pods[id]), t.(pods := t.pods[id := pods[id]]));
    RunInTwo(u, c, [Delete(id)], [Create(pods[id])]);
    actions := [Delete(id)] + [Create(pods[id])];
    assert (c.pods - {id})[id := pods[id]] == c.pods[id := pods[id]];
  }

  /** One pod becomes what it shall be. */
  lemma FixOne(u: Setup, c: Cluster, pods: map<PodId, Pod>, id: PodId) returns (actions: seq<Action>)
    requires Sound(c) && MayBecome(u, c, pods) && (id in c.pods || id in pods)
    ensures CanRun(u, c, actions) && Run(u, c, actions) == c.(pods := Fixed(c.pods, pods, id))
  {
    if id !in pods {
      DeleteOne(u, c, id);
      actions := [Delete(id)];
    } else if id !in c.pods {
      CreateOne(u, c, pods, id);
      actions := [Create(pods[id])];
    } else if Progressed(c.pods[id], pods[id]) {
      ProgressOne(u, c, id, pods[id]);
      actions := [Progress(id, pods[id].phase, pods[id].terminating)];
    } else {
      actions := ReplaceOne(u, c, pods, id);
    }
  }

  /** The other actors can turn the pods of any state into any others that respect the taint, without the
      controller taking a step. */
  lemma OthersCanDoAnything(u: Setup, c: Cluster, pods: map<PodId, Pod>) returns (actions: seq<Action>)
    requires Sound(c) && MayBecome(u, c, pods)
    ensures CanRun(u, c, actions) && Run(u, c, actions) == c.(pods := pods)
  {
    actions := FixAll(u, c, pods, c.pods.Keys + pods.Keys);
  }

  lemma {:induction false} FixAll(u: Setup, c: Cluster, pods: map<PodId, Pod>, ids: set<PodId>)
      returns (actions: seq<Action>)
    requires Sound(c) && MayBecome(u, c, pods) && ids <= c.pods.Keys + pods.Keys
    requires forall id :: id !in ids ==> (id in c.pods <==> id in pods) && (id in pods ==> c.pods[id] == pods[id])
    ensures CanRun(u, c, actions) && Run(u, c, actions) == c.(pods := pods)
    decreases |ids|
  {
    if ids == {} {
      actions := [];
      assert c.pods == pods;
    } else {
      var id :| id in ids;
      var first := FixOne(u, c, pods, id);
      var t := c.(pods := Fixed(c.pods, pods, id));
      assert MayBecome(u, t, pods);
      var rest := FixAll(u, t, pods, ids - {id});
      RunInTwo(u, c, first, rest);
      actions := first + rest;
    }
  }

  /** The scheduler may bind an unbound pod to any node it accepts, the degraded one only if the pod
      tolerates the taint or the taint is not there. */
  lemma BoundWhereAccepted(u: Setup, c: Cluster, id: PodId, node: string)
    requires Sound(c) && id in c.pods && c.pods[id].nodeName == ""
    ensures Enabled(u, c, Bind(id, node)) <==>
      !(node == u.nodeName && DEGRADED_TAINT in Current(c).taints && !c.pods[id].tolerates)
    ensures Enabled(u, c, Bind(id, node)) ==>
      CanRun(u, c, [Bind(id, node)]) &&
      Run(u, c, [Bind(id, node)]) == c.(pods := c.pods[id := c.pods[id].(nodeName := node)])
  {
    if Enabled(u, c, Bind(id, node)) {
      OneAction(u, c, Bind(id, node), c.(pods := c.pods[id := c.pods[id].(nodeName := node)]));
    }
  }
}
