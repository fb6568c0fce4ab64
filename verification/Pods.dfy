/** Pods, which of them a degraded node must lose, and the eviction loop. */
module Pods {
  import opened Strings

  datatype PodId = PodId(namespace: string, name: string)

  /** `TrainingJob` and `AutoRemediate` stand for the two label keys the controller reads. */
  datatype Label = TrainingJob | AutoRemediate | OtherLabel(name: string)

  datatype PodPhase = Pending | Active | Succeeded | Failed

  /** `tolerates` says whether the pod tolerates the degraded taint; an unbound pod has no node name. */
  datatype Pod = Pod(
    id: PodId,
    nodeName: string,
    labels: map<Label, string>,
    phase: PodPhase,
    terminating: bool,
    tolerates: bool
  )

  function ReadLabel(labels: map<Label, string>, key: Label): string {
    if key in labels then labels[key] else ""
  }

  /** `isImpactedTrainingPod`. */
  predicate IsImpacted(pod: Pod, nodeName: string) {
    pod.nodeName == nodeName && !pod.terminating && !pod.phase.Succeeded? && !pod.phase.Failed? &&
    TrimSpace(ReadLabel(pod.labels, TrainingJob)) != "" &&
    TrimSpace(ReadLabel(pod.labels, AutoRemediate)) == "true"
  }

  datatype EvictOutcome = Evicted | NotFound | Refused

  /** The ids a pass over a listing attempts to evict, in listing order. */
  function Targets(pods: seq<Pod>, nodeName: string): seq<PodId> {
    if pods == [] then []
    else
      var rest := Targets(pods[..|pods| - 1], nodeName);
      var last := pods[|pods| - 1];
      if IsImpacted(last, nodeName) then rest + [last.id] else rest
  }

  predicate DistinctIds(pods: seq<Pod>) {
    forall i, j :: 0 <= i < j < |pods| ==> pods[i].id != pods[j].id
  }

  lemma LastIdIsNew(pods: seq<Pod>)
    requires pods != [] && DistinctIds(pods)
    ensures forall p :: p in pods[..|pods| - 1] ==> p.id != pods[|pods| - 1].id
  {
    var rest := pods[..|pods| - 1];
    forall p | p in rest
      ensures p.id != pods[|rest|].id
    {
      var i :| 0 <= i < |rest| && rest[i] == p;
      assert pods[i].id != pods[|rest|].id;
    }
  }

  lemma {:induction false} ImpactedAreTargets(pods: seq<Pod>, nodeName: string, id: PodId)
    requires DistinctIds(pods)
    ensures multiset(Targets(pods, nodeName))[id] ==
      if exists p :: p in pods && p.id == id && IsImpacted(p, nodeName) then 1 else 0
  {
    if pods != [] {
      var rest, last := pods[..|pods| - 1], pods[|pods| - 1];
      assert pods == rest + [last];
      assert forall p :: p in pods <==> p in rest || p == last;
      ImpactedAreTargets(rest, nodeName, id);
      LastIdIsNew(pods);
    }
  }

  /** A listed pod is a target exactly once if it is bound to the node, alive, neither terminating nor
      finished, belongs to a training job and has opted in; if any of these is missing it is none. */
  lemma TargetsExactly(pods: seq<Pod>, nodeName: string, id: PodId)
    requires DistinctIds(pods)
    ensures multiset(Targets(pods, nodeName))[id] ==
      if exists p :: p in pods && p.id == id && p.nodeName == nodeName && p.phase in {Pending, Active} &&
           !p.terminating && TrainingJob in p.labels && TrimSpace(p.labels[TrainingJob]) != "" &&
           AutoRemediate in p.labels && TrimSpace(p.labels[AutoRemediate]) == "true"
      then 1 else 0
  {
    assert TrimSpace("") == "";
    ImpactedAreTargets(pods, nodeName, id);
  }

  /** Targets come in the order of the listing. */
  lemma {:induction false} TargetsInOrder(pods: seq<Pod>, more: seq<Pod>, nodeName: string)
    ensures Targets(pods + more, nodeName) == Targets(pods, nodeName) + Targets(more, nodeName)
    decreases |more|
  {
    if more == [] {
      assert pods + more == pods;
    } else {
      TargetsInOrder(pods, more[..|more| - 1], nodeName);
      assert (pods + more)[..|pods + more| - 1] == pods + more[..|more| - 1];
    }
  }

  function RefusedOnes(ids: seq<PodId>, outcome: PodId -> EvictOutcome): seq<PodId> {
    if ids == [] then []
    else
      var rest := RefusedOnes(ids[..|ids| - 1], outcome);
      var last := ids[|ids| - 1];
      if outcome(last).Refused? then rest + [last] else rest
  }

  /** A pass reports an error exactly when some attempt failed with something other than NotFound. */
  lemma {:induction false} ErrorExactlyWhenRefused(ids: seq<PodId>, outcome: PodId -> EvictOutcome)
    ensures RefusedOnes(ids, outcome) != [] <==> exists id :: id in ids && outcome(id).Refused?
  {
    if ids != [] {
      var rest, last := ids[..|ids| - 1], ids[|ids| - 1];
      assert ids == rest + [last];
      assert forall id :: id in ids <==> id in rest || id == last;
      ErrorExactlyWhenRefused(rest, outcome);
    }
  }

  /** The eviction loop of `Reconcile`: a failure does not stop it. `outcome` is what the API answers
      for each pod. */
  method EvictImpacted(pods: seq<Pod>, nodeName: string, outcome: PodId -> EvictOutcome)
      returns (attempts: seq<PodId>, evictionErrors: seq<PodId>)
    ensures attempts == Targets(pods, nodeName)
    ensures evictionErrors == RefusedOnes(attempts, outcome)
  {
    attempts, evictionErrors := [], [];
    var i := 0;
    while i < |pods|
      invariant 0 <= i <= |pods|
      invariant attempts == Targets(pods[..i], nodeName)
      invariant evictionErrors == RefusedOnes(attempts, outcome)
    {
      var pod := pods[i];
      assert pods[..i + 1][..i] == pods[..i];
      i := i + 1;
      if !IsImpacted(pod, nodeName) {
        continue;
      }
      assert (attempts + [pod.id])[..|attempts|] == attempts;
      attempts := attempts + [pod.id];
      var result := outcome(pod.id);
      if result.NotFound? {
        continue;
      }
      if result.Refused? {
        evictionErrors := evictionErrors + [pod.id];
      }
    }
    assert pods[..i] == pods;
  }
}
