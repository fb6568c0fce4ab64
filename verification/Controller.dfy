/** `NodeHealthReconciler.Reconcile` as an imperative program over a Node object and an API server. */
module Controller {
  import opened Options
  import opened Health
  import opened Nodes
  import opened Pods
  import opened Reconciler

  /** The stored versions of one Node; the last one is current. An update names the version it was
      computed from. */
  class ApiServer {
    var history: seq<NodeView>

    constructor (view: NodeView)
      ensures history == [view]
    {
      history := [view];
    }

    /** A version-checked update; `refused` covers every other reason for the API to fail. */
    method Update(version: nat, view: NodeView, refused: bool) returns (ok: bool)
      modifies this
      ensures ok <==> !refused && version + 1 == |old(history)|
      ensures history == if ok then old(history) + [view] else old(history)
    {
      ok := !refused && version + 1 == |history|;
      if ok {
        history := history + [view];
      }
    }
  }

  /** How a pass ends. */
  datatype Outcome =
    | NodeGone
    | NotConfigured
    | UpdateFailed
    | Settled
    | ListFailed
    | Evicting(errors: seq<PodId>)

  /** After annotations were written, isolation undoes no change, and changes something exactly when it
      adds the taint. */
  lemma IsolateChanges(was: NodeView, marked: NodeView)
    requires marked.taints == was.taints
    ensures HasDegraded(Isolate(marked).taints)
    ensures Isolate(marked) != was <==> marked != was || !HasDegraded(was.taints)
  {
    assert !HasDegraded(was.taints) ==> HasDegraded(Isolate(marked).taints);
  }

  /** Likewise for recovery and the ownership marker. */
  lemma RecoverChanges(was: NodeView, marked: NodeView)
    requires marked.taints == was.taints && (Managed in marked.annotations <==> Managed in was.annotations)
    ensures HasDegraded(Recover(marked).taints) <==> HasDegraded(was.taints) && !IsManaged(marked.annotations)
    ensures Recover(marked) != was <==> marked != was || IsManaged(marked.annotations)
  {
    WithoutDegradedFilters(was.taints);
    assert IsManaged(marked.annotations) ==> Managed !in Recover(marked).annotations;
  }

  /** The in-place part of a pass: annotations, then isolation or recovery. */
  method Rewrite(node: Node, tf: TimeFormat, o: Observation, now: int, window: int)
      returns (changed: bool, d: Decision, taintAdded: bool, taintRemoved: bool)
    requires node.Valid()
    modifies node, node.buffer
    ensures node.Valid()
    ensures d == Decide(tf, old(node.View()), Stamped(o, now), now, window)
    ensures node.View() == NextNode(tf, old(node.View()), o, now, window)
    ensures changed <==> node.View() != old(node.View())
    ensures taintAdded <==> !HasDegraded(old(node.View()).taints) && HasDegraded(node.View().taints)
    ensures taintRemoved <==> HasDegraded(old(node.View()).taints) && !HasDegraded(node.View().taints)
  {
    ghost var was := node.View();
    var observation := Stamped(o, now);
    d := DecideIsolation(ParseState(Read(node.annotations, HealthState)), IsManaged(node.annotations),
                         AnnotationTime(tf, node.annotations, RecoveryStartedAt), observation, now,
                         EffectiveWindow(window));
    changed := node.ApplyHealthAnnotations(tf, d, observation);
    taintAdded, taintRemoved := false, false;
    ghost var marked := node.View();
    assert (Managed in marked.annotations <==> Managed in was.annotations) &&
      IsManaged(marked.annotations) == IsManaged(was.annotations) by {
      HealthAnnotationsAgree(tf, was.annotations, d, observation);
    }
    if d.isolate {
      taintAdded := node.IsolateNode();
      IsolateChanges(was, marked);
      changed := changed || taintAdded;
    } else {
      var recovered;
      recovered, taintRemoved := node.RecoverNode();
      RecoverChanges(was, marked);
      changed := changed || recovered;
    }
  }

  /** What a pass on version `cached` that has an observation does to the stored versions, how it ends, and
      which evictions it attempts. */
  ghost predicate PassDone(history: seq<NodeView>, cached: nat, nodeName: string, tf: TimeFormat, source: Observation,
                           now: int, window: int, refused: bool, listing: Option<seq<Pod>>,
                           outcome: PodId -> EvictOutcome, after: seq<NodeView>, result: Outcome,
                           attempts: seq<PodId>)
    requires cached < |history|
  {
    var was := history[cached];
    var next := NextNode(tf, was, source, now, window);
    if next != was && (refused || cached + 1 != |history|) then
      result == UpdateFailed && after == history && attempts == []
    else
      after == (if next != was then history + [next] else history) &&
      if Decide(tf, was, Stamped(source, now), now, window).state != Degraded then result == Settled && attempts == []
      else if listing.None? then result == ListFailed && attempts == []
      else attempts == Targets(listing.value, nodeName) && result == Evicting(RefusedOnes(attempts, outcome))
  }

  /** `Reconcile`. `cached` is the version the cache returns, if it has the Node; `source` what the
      configured health source observes, if one is configured; `refused` makes the update fail;
      `listing` is what listing the pods returns, if it succeeds; `outcome` what each eviction does. */
  method Reconcile(server: ApiServer, nodeName: string, cached: Option<nat>, tf: TimeFormat,
                   source: Option<Observation>, now: int, window: int, refused: bool,
                   listing: Option<seq<Pod>>, outcome: PodId -> EvictOutcome)
      returns (result: Outcome, attempts: seq<PodId>)
    requires cached.Some? ==> cached.value < |server.history|
    modifies server
    ensures cached.None? ==> result == NodeGone
    ensures cached.Some? && source.None? ==> result == NotConfigured
    ensures cached.None? || source.None? ==> server.history == old(server.history) && attempts == []
    ensures cached.Some? && source.Some? ==>
      PassDone(old(server.history), cached.value, nodeName, tf, source.value, now, window, refused, listing, outcome,
               server.history, result, attempts)
  {
    attempts := [];
    if cached.None? {
      return NodeGone, [];
    }
    var node := new Node(server.history[cached.value]);
    if source.None? {
      return NotConfigured, [];
    }
    var changed, d, taintAdded, taintRemoved := Rewrite(node, tf, source.value, now, window);
    if changed {
      var view := node.Snapshot();
      var ok := server.Update(cached.value, view, refused);
      if !ok {
        return UpdateFailed, [];
      }
    }
    if d.state != Degraded {
      return Settled, [];
    }
    if listing.None? {
      return ListFailed, [];
    }
    var evictionErrors;
    attempts, evictionErrors := EvictImpacted(listing.value, nodeName, outcome);
    return Evicting(evictionErrors), attempts;
  }
}
