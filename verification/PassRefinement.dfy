/** The machine's atomic steps, taken without disturbance, do what the program `Reconcile` does. */
module PassRefinement {
  import opened Options
  import opened Health
  import opened Pods
  import opened Cluster
  import opened ClusterTheorems
  import Controller

  /** The eviction requests for `ids`, refused where the API refuses them. */
  function Evictions(ids: seq<PodId>, outcome: PodId -> EvictOutcome): seq<Action> {
    if ids == [] then [] else [Evict(outcome(ids[0]).Refused?)] + Evictions(ids[1..], outcome)
  }

  lemma {:induction false} RefusedFromFront(ids: seq<PodId>, outcome: PodId -> EvictOutcome)
    requires ids != []
    ensures RefusedOnes(ids, outcome) ==
      (if outcome(ids[0]).Refused? then [ids[0]] else []) + RefusedOnes(ids[1..], outcome)
    decreases |ids|
  {
    var front, last := ids[..|ids| - 1], ids[|ids| - 1];
    if front == [] {
      assert ids[1..] == [];
    } else {
      RefusedFromFront(front, outcome);
      assert ids[1..][..|ids[1..]| - 1] == front[1..];
    }
  }

  lemma ListingGrows(pods: map<PodId, Pod>, rest: seq<Pod>, id: PodId)
    requires id in pods && pods[id].id == id && IsListing(pods - {id}, rest)
    ensures IsListing(pods, rest + [pods[id]])
  {
    var items := rest + [pods[id]];
    assert forall p :: p in items <==> p in rest || p == pods[id];
    forall i, j | 0 <= i < j < |items|
      ensures items[i].id != items[j].id
    {
      assert rest[i] in rest;
    }
    forall k | k in pods
      ensures pods[k] in items
    {
      assert k != id ==> k in pods - {id} && (pods - {id})[k] == pods[k];
    }
  }

  /** Every set of pods has a listing. */
  lemma {:induction false} ListingExists(pods: map<PodId, Pod>) returns (items: seq<Pod>)
    requires forall id :: id in pods ==> pods[id].id == id
    ensures IsListing(pods, items)
    decreases |pods|
  {
    if pods == map[] {
      items := [];
    } else {
      var id :| id in pods;
      var rest := ListingExists(pods - {id});
      ListingGrows(pods, rest, id);
      items := rest + [pods[id]];
    }
  }

  /** What the API answers fits the pods there are. */
  ghost predicate Fits(pods: map<PodId, Pod>, outcome: PodId -> EvictOutcome) {
    forall id :: outcome(id).NotFound? <==> id !in pods
  }

  /** The pods whose eviction went through are terminating, the others as they were. */
  ghost predicate EvictedOnes(pods: map<PodId, Pod>, ids: seq<PodId>, outcome: PodId -> EvictOutcome,
                              after: map<PodId, Pod>)
  {
    after.Keys == pods.Keys &&
    forall id :: id in pods ==>
      after[id] == if id in ids && outcome(id).Evicted? then pods[id].(terminating := true) else pods[id]
  }

  /** One eviction request. */
  lemma EvictOne(c: Cluster, outcome: PodId -> EvictOutcome, id: PodId, t: Cluster)
    requires c.phase.Evicting? && c.phase.pending != [] && id == c.phase.pending[0] && Fits(c.pods, outcome)
    requires t == ApplyEvict(c, outcome(id).Refused?)
    ensures t == c.(pods := t.pods,
                    phase := Evicting(c.phase.written, c.phase.pending[1..],
                                      c.phase.refused + if outcome(id).Refused? then [id] else []))
    ensures EvictedOnes(c.pods, [id], outcome, t.pods) && Fits(t.pods, outcome)
  {
    assert c.phase.refused + [] == c.phase.refused;
  }

  lemma EvictedInTwo(pods: map<PodId, Pod>, ids: seq<PodId>, outcome: PodId -> EvictOutcome,
                     between: map<PodId, Pod>, after: map<PodId, Pod>)
    requires ids != [] && EvictedOnes(pods, [ids[0]], outcome, between)
    requires EvictedOnes(between, ids[1..], outcome, after)
    ensures EvictedOnes(pods, ids, outcome, after)
  {
    assert forall id :: id in ids <==> id == ids[0] || id in ids[1..];
  }

  lemma FirstThenRest(u: Setup, c: Cluster, a: Action, t: Cluster, rest: seq<Action>)
    requires Sound(c) && Enabled(u, c, a) && Apply(u, c, a) == t && Sound(t) && CanRun(u, t, rest)
    ensures CanRun(u, c, [a] + rest) && Run(u, c, [a] + rest) == Run(u, t, rest)
  {
    var all := [a] + rest;
    assert all[0] == a && all[1..] == rest;
  }

  lemma RefusedInTwo(refused: seq<PodId>, ids: seq<PodId>, outcome: PodId -> EvictOutcome)
    requires ids != []
    ensures refused + RefusedOnes(ids, outcome) ==
      refused + (if outcome(ids[0]).Refused? then [ids[0]] else []) + RefusedOnes(ids[1..], outcome)
  {
    RefusedFromFront(ids, outcome);
  }

  /** The state once all of `ids` are attempted. */
  ghost predicate Attempted(c: Cluster, ids: seq<PodId>, outcome: PodId -> EvictOutcome, d: Cluster)
    requires c.phase.Evicting?
  {
    d == c.(pods := d.pods, phase := Evicting(c.phase.written, [], c.phase.refused + RefusedOnes(ids, outcome))) &&
    EvictedOnes(c.pods, ids, outcome, d.pods)
  }

  lemma AttemptedInTwo(c: Cluster, outcome: PodId -> EvictOutcome, t: Cluster, d: Cluster)
    requires c.phase.Evicting? && c.phase.pending != [] && Fits(c.pods, outcome)
    requires t == ApplyEvict(c, outcome(c.phase.pending[0]).Refused?)
    requires Attempted(t, c.phase.pending[1..], outcome, d)
    ensures Attempted(c, c.phase.pending, outcome, d)
  {
    var ids := c.phase.pending;
    EvictOne(c, outcome, ids[0], t);
    EvictedInTwo(c.pods, ids, outcome, t.pods, d.pods);
    RefusedInTwo(c.phase.refused, ids, outcome);
  }

  lemma {:induction false} EvictionsRun(u: Setup, c: Cluster, outcome: PodId -> EvictOutcome, ids: seq<PodId>)
      returns (d: Cluster)
    requires Sound(c) && c.phase.Evicting? && c.phase.pending == ids && Fits(c.pods, outcome)
    ensures CanRun(u, c, Evictions(ids, outcome)) && d == Run(u, c, Evictions(ids, outcome))
    ensures Attempted(c, ids, outcome, d)
    decreases |ids|
  {
    if ids == [] {
      d := c;
      assert c.phase.refused + [] == c.phase.refused;
    } else {
      var t := ApplyEvict(c, outcome(ids[0]).Refused?);
      EvictOne(c, outcome, ids[0], t);
      d := EvictionsRun(u, t, outcome, ids[1..]);
      FirstThenRest(u, c, Evict(outcome(ids[0]).Refused?), t, Evictions(ids[1..], outcome));
      AttemptedInTwo(c, outcome, t, d);
    }
  }

  /** Listing, all evictions and the return of a pass. */
  lemma EvictingRun(u: Setup, c: Cluster, items: seq<Pod>, outcome: PodId -> EvictOutcome)
      returns (actions: seq<Action>, evicted: Cluster)
    requires Sound(c) && c.phase.Listing? && IsListing(c.pods, items) && Fits(c.pods, outcome)
    ensures CanRun(u, c, actions) && evicted == Run(u, c, actions)
    ensures evicted.history == c.history && evicted.clock == c.clock && evicted.passes == c.passes
    ensures evicted.phase == Evicting(c.phase.written, [], RefusedOnes(Targets(items, u.nodeName), outcome))
    ensures EvictedOnes(c.pods, Targets(items, u.nodeName), outcome, evicted.pods)
  {
    var ids := Targets(items, u.nodeName);
    var listed := c.(phase := Evicting(c.phase.written, ids, []));
    ListRuns(u, c, items);
    evicted := EvictionsRun(u, listed, outcome, ids);
    RunInTwo(u, c, [List(items, false)], Evictions(ids, outcome));
    actions := [List(items, false)] + Evictions(ids, outcome);
    assert [] + RefusedOnes(ids, outcome) == RefusedOnes(ids, outcome);
  }

  lemma ListRuns(u: Setup, c: Cluster, items: seq<Pod>)
    requires Sound(c) && c.phase.Listing? && IsListing(c.pods, items)
    ensures CanRun(u, c, [List(items, false)])
    ensures Run(u, c, [List(items, false)]) ==
      c.(phase := Evicting(c.phase.written, Targets(items, u.nodeName), []))
  {
    var list, d := [List(items, false)], c.(phase := Evicting(c.phase.written, Targets(items, u.nodeName), []));
    assert list[1..] == [] && Apply(u, c, list[0]) == d && CanRun(u, d, []) && Run(u, d, []) == d;
  }

  /** The state between reading the Node and writing it. */
  function Fetching(c: Cluster, version: nat, now: int): Cluster {
    c.(phase := Fetched(version, now), clock := now)
  }

  lemma PassRuns(u: Setup, c: Cluster, version: nat, now: int, o: Observation, read: int, refused: bool)
    requires Sound(c) && c.phase.Idle? && version < |c.history| && c.clock < now < read && FromSource(o, read)
    ensures var actions := [Get(version, now), Write(o, read, refused)];
      var fetched := Fetching(c, version, now);
      CanRun(u, c, actions) && Run(u, c, actions) == Recorded(fetched, RecordOf(u, fetched, o, refused), read)
  {
    var actions := [Get(version, now), Write(o, read, refused)];
    var fetched := Fetching(c, version, now);
    var done := Recorded(fetched, RecordOf(u, fetched, o, refused), read);
    assert actions[1..] == [Write(o, read, refused)] && actions[1..][1..] == [];
    assert Apply(u, c, actions[0]) == fetched && Apply(u, fetched, actions[1]) == done;
    assert CanRun(u, done, []) && Run(u, done, []) == done;
    assert CanRun(u, fetched, actions[1..]) && Run(u, fetched, actions[1..]) == done;
  }

  lemma ReturnRuns(u: Setup, c: Cluster, a: Action)
    requires Sound(c) && Enabled(u, c, a)
    requires (c.phase.Evicting? && a.Return?) || (c.phase.Listing? && a.List? && a.fails)
    ensures CanRun(u, c, [a]) && Run(u, c, [a]) == c.(phase := Idle)
  {
    var d := c.(phase := Idle);
    assert [a][1..] == [] && Apply(u, c, a) == d && CanRun(u, d, []) && Run(u, d, []) == d;
  }

  /** How the write of a pass ends, in the program's terms. */
  lemma WriteDone(u: Setup, c: Cluster, version: nat, now: int, o: Observation, read: int, refused: bool,
                  listing: Option<seq<Pod>>, outcome: PodId -> EvictOutcome, written: Cluster)
      returns (result: Controller.Outcome, attempts: seq<PodId>)
    requires Sound(c) && c.phase.Idle? && version < |c.history|
    requires var fetched := Fetching(c, version, now);
      written == Recorded(fetched, RecordOf(u, fetched, o, refused), read)
    ensures Controller.PassDone(c.history, version, u.nodeName, u.tf, o, now, u.window, refused, listing, outcome,
                                written.history, result, attempts)
    ensures written.pods == c.pods && (written.phase.Idle? || written.phase.Listing?)
    ensures written.phase.Listing? <==> result.ListFailed? || result.Evicting?
    ensures result.ListFailed? ==> listing.None?
    ensures result.Evicting? ==> listing.Some? && attempts == Targets(listing.value, u.nodeName)
    ensures result.Evicting? ==> result.errors == RefusedOnes(attempts, outcome)
    ensures !result.Evicting? ==> attempts == []
  {
    var p := RecordOf(u, Fetching(c, version, now), o, refused);
    attempts := [];
    if !p.ok {
      result := Controller.UpdateFailed;
    } else if p.decision.state != Degraded {
      result := Controller.Settled;
    } else if listing.None? {
      result := Controller.ListFailed;
    } else {
      attempts := Targets(listing.value, u.nodeName);
      result := Controller.Evicting(RefusedOnes(attempts, outcome));
    }
  }

  /** From any state between passes, on any version, whatever the API refuses: the undisturbed steps of a
      pass can be taken, and end with what `Reconcile` does to the stored versions, with its result, and
      with exactly the pods terminating whose eviction it attempted and the API accepted. */
  lemma UndisturbedPass(u: Setup, c: Cluster, version: nat, now: int, o: Observation, read: int, refused: bool,
                        items: seq<Pod>, fails: bool, outcome: PodId -> EvictOutcome)
      returns (actions: seq<Action>, d: Cluster, result: Controller.Outcome, attempts: seq<PodId>)
    requires Sound(c) && c.phase.Idle? && version < |c.history| && c.clock < now < read && FromSource(o, read)
    requires IsListing(c.pods, items) && Fits(c.pods, outcome)
    ensures CanRun(u, c, actions) && d == Run(u, c, actions) && d.phase.Idle?
    ensures Controller.PassDone(c.history, version, u.nodeName, u.tf, o, now, u.window, refused,
                                if fails then None else Some(items), outcome, d.history, result, attempts)
    ensures EvictedOnes(c.pods, attempts, outcome, d.pods)
  {
    var pass := [Get(version, now), Write(o, read, refused)];
    PassRuns(u, c, version, now, o, read, refused);
    var written := Run(u, c, pass);
    result, attempts := WriteDone(u, c, version, now, o, read, refused, if fails then None else Some(items), outcome,
                                  written);
    if written.phase.Idle? {
      actions, d := pass, written;
    } else if fails {
      ReturnRuns(u, written, List(items, true));
      RunInTwo(u, c, pass, [List(items, true)]);
      actions, d := pass + [List(items, true)], written.(phase := Idle);
    } else {
      var evicting, evicted := EvictingRun(u, written, items, outcome);
      RunInTwo(u, c, pass, evicting);
      ReturnRuns(u, evicted, Return);
      RunInTwo(u, c, pass + evicting, [Return]);
      actions, d := pass + evicting + [Return], evicted.(phase := Idle);
    }
  }
}
