/** The local fixture's training job: the same checkpoints, but a barrier in every step and no saved
    generator state, so what is proved of it is lockstep and bounded loss, not exact replay. */
module FixtureTraining {
  import opened Options
  import opened Decimal
  import opened CheckpointStore

  /** The published files: the step in `latest.pt`, if it exists, and the numbered files. */
  datatype Store = Store(latest: Option<nat>, files: set<nat>)

  /** What `latest_checkpoint` leads to. */
  ghost function Resume(d: Store): nat {
    match d.latest
    case Some(k) => k
    case None => if d.files == {} then 0 else PickLast(d.files)
  }

  /** `stage` counts the files of the current save that are published. */
  datatype Phase = Booting | Waiting | Running | Saving(stage: nat) | Done | Dead

  /** Collectives are numbered within a generation: the barrier before the loop is 0, and the `i`-th
      step of the loop has the gradient all-reduce `2i - 1` and the barrier `2i`. */
  datatype Rank = Rank(phase: Phase, entered: nat, left: nat, step: nat)

  datatype Job = Job(world: nat, every: nat, maxSteps: nat)

  datatype State = State(dir: Store, ranks: seq<Rank>, origin: nat)

  datatype Action = Boot(rank: nat) | Leave(rank: nat) | Compute(rank: nat) | Finish(rank: nat)
                  | Save | Die(rank: nat) | Restart

  predicate Valid(w: Job) {
    w.world >= 1 && w.every >= 1
  }

  ghost function NewGeneration(w: Job, dir: Store): State {
    State(dir, seq(w.world, (r: nat) => Rank(Booting, 0, 0, 0)), Resume(dir))
  }

  predicate Enabled(w: Job, s: State, a: Action) {
    match a
    case Boot(r) => r < |s.ranks| && s.ranks[r].phase.Booting?
    case Leave(r) =>
      r < |s.ranks| && s.ranks[r].phase.Waiting? &&
      forall q :: 0 <= q < |s.ranks| ==> s.ranks[r].left < s.ranks[q].entered
    case Compute(r) => r < |s.ranks| && s.ranks[r].phase.Running? && s.ranks[r].step < w.maxSteps
    case Finish(r) => r < |s.ranks| && s.ranks[r].phase.Running? && s.ranks[r].step >= w.maxSteps
    case Save => 0 < |s.ranks| && s.ranks[0].phase.Saving?
    case Die(r) => r < |s.ranks|
    case Restart => true
  }

  function Entering(rank: Rank): Rank {
    rank.(phase := Waiting, entered := rank.entered + 1)
  }

  /** Leaving a barrier leads to the loop top; leaving the all-reduce completes a step, after which rank 0
      saves if it is time, and everybody enters the step's barrier. */
  function AfterLeaving(w: Job, r: nat, rank: Rank): Rank
    requires Valid(w)
  {
    var gone := rank.(left := rank.left + 1);
    if rank.left % 2 == 0 then gone.(phase := Running)
    else
      var stepped := gone.(step := rank.step + 1);
      if r == 0 && stepped.step % w.every == 0 then stepped.(phase := Saving(0)) else Entering(stepped)
  }

  /** The numbered file, then `latest.pt`, then the barrier. */
  function ApplySave(s: State): State
    requires |s.ranks| > 0 && s.ranks[0].phase.Saving?
  {
    var rank := s.ranks[0];
    if rank.phase.stage == 0 then
      s.(dir := s.dir.(files := s.dir.files + {rank.step}), ranks := s.ranks[0 := rank.(phase := Saving(1))])
    else if rank.phase.stage == 1 then
      s.(dir := s.dir.(latest := Some(rank.step)), ranks := s.ranks[0 := rank.(phase := Saving(2))])
    else s.(ranks := s.ranks[0 := Entering(rank)])
  }

  ghost function Apply(w: Job, s: State, a: Action): State
    requires Valid(w) && Enabled(w, s, a)
  {
    match a
    case Boot(r) => s.(ranks := s.ranks[r := Entering(s.ranks[r].(step := Resume(s.dir)))])
    case Leave(r) => s.(ranks := s.ranks[r := AfterLeaving(w, r, s.ranks[r])])
    case Compute(r) => s.(ranks := s.ranks[r := Entering(s.ranks[r])])
    case Finish(r) => s.(ranks := s.ranks[r := s.ranks[r].(phase := Done)])
    case Save => ApplySave(s)
    case Die(r) => s.(ranks := s.ranks[r := s.ranks[r].(phase := Dead)])
    case Restart => NewGeneration(w, s.dir)
  }

  ghost predicate CanRun(w: Job, s: State, actions: seq<Action>)
    requires Valid(w)
    decreases |actions|
  {
    actions == [] || (Enabled(w, s, actions[0]) && CanRun(w, Apply(w, s, actions[0]), actions[1..]))
  }

  ghost function Run(w: Job, s: State, actions: seq<Action>): State
    requires Valid(w) && CanRun(w, s, actions)
    decreases |actions|
  {
    if actions == [] then s else Run(w, Apply(w, s, actions[0]), actions[1..])
  }

  // The invariant.

  predicate RankOk(w: Job, origin: nat, r: nat, rank: Rank)
    requires Valid(w)
  {
    (rank.entered > 0 ==> rank.step == origin + rank.left / 2) &&
    match rank.phase
    case Booting => rank.entered == rank.left == 0
    case Waiting => rank.entered == rank.left + 1
    case Running => rank.entered == rank.left && rank.left % 2 == 1
    case Done => rank.entered == rank.left && rank.left % 2 == 1
    case Saving(stage) =>
      r == 0 && stage <= 2 && rank.entered == rank.left >= 2 && rank.left % 2 == 0 && rank.step % w.every == 0
    case Dead => rank.left <= rank.entered <= rank.left + 1
  }

  /** What must be resumable once rank 0 has entered `entered` collectives. */
  function Due(w: Job, origin: nat, entered: nat): nat
    requires Valid(w)
  {
    if entered == 0 then origin else RoundDown(origin + (entered - 1) / 2, w.every)
  }

  ghost predicate PublishOk(w: Job, origin: nat, dir: Store, rank: Rank)
    requires Valid(w)
  {
    var resumable := Resume(dir);
    match rank.phase
    case Dead => (rank.left == 0 ==> resumable == origin) && resumable >= Due(w, origin, rank.entered)
    case Saving(stage) =>
      rank.step >= 1 &&
      (stage == 0 ==> resumable == RoundDown(rank.step - 1, w.every)) &&
      (stage == 1 ==>
         resumable in {RoundDown(rank.step - 1, w.every), rank.step} &&
         (dir.latest.Some? ==> resumable == RoundDown(rank.step - 1, w.every))) &&
      (stage == 2 ==> dir.latest == Some(rank.step))
    case _ => resumable == Due(w, origin, rank.entered)
  }

  predicate StoreOk(w: Job, d: Store)
    requires Valid(w)
  {
    (d.latest.Some? ==> d.latest.value % w.every == 0) && forall k :: k in d.files ==> k % w.every == 0
  }

  predicate OrderOk(ranks: seq<Rank>) {
    forall q, r :: 0 <= q < |ranks| && 0 <= r < |ranks| ==> ranks[r].left <= ranks[q].entered
  }

  ghost predicate Inv(w: Job, s: State) {
    Valid(w) && |s.ranks| == w.world && s.origin % w.every == 0 && StoreOk(w, s.dir) && OrderOk(s.ranks) &&
    (forall r :: 0 <= r < w.world ==> RankOk(w, s.origin, r, s.ranks[r])) &&
    PublishOk(w, s.origin, s.dir, s.ranks[0])
  }

  lemma NewGenerationOk(w: Job, dir: Store)
    requires Valid(w) && StoreOk(w, dir)
    ensures Inv(w, NewGeneration(w, dir))
  {
  }

  /** The step due grows by whole periods, as rank 0 goes from one collective to the next. */
  lemma DueGrows(w: Job, origin: nat, left: nat)
    requires Valid(w) && origin % w.every == 0 && left >= 1
    ensures left % 2 == 1 ==> Due(w, origin, left + 1) == Due(w, origin, left)
    ensures left % 2 == 0 ==> Due(w, origin, left) == RoundDown(origin + left / 2 - 1, w.every)
    ensures left % 2 == 0 ==> Due(w, origin, left + 1) == RoundDown(origin + left / 2, w.every)
  {
  }

  lemma SaveKeepsStore(w: Job, d: Store, k: nat)
    requires Valid(w) && StoreOk(w, d) && k % w.every == 0
    ensures StoreOk(w, d.(files := d.files + {k})) && StoreOk(w, d.(latest := Some(k)))
    ensures Resume(d.(files := d.files + {k})) in {Resume(d), k}
    ensures d.latest.Some? ==> Resume(d.(files := d.files + {k})) == Resume(d)
  {
    if d.files != {} {
      LastAfterAdding(d.files, k);
    } else {
      assert PickLast({} + {k}) == k;
    }
  }

  lemma LeavingKeepsPublished(w: Job, origin: nat, dir: Store, rank: Rank)
    requires Valid(w) && origin % w.every == 0 && rank.phase.Waiting?
    requires RankOk(w, origin, 0, rank) && PublishOk(w, origin, dir, rank)
    ensures RankOk(w, origin, 0, AfterLeaving(w, 0, rank))
    ensures PublishOk(w, origin, dir, AfterLeaving(w, 0, rank))
  {
    if rank.left % 2 == 1 {
      DueGrows(w, origin, rank.left + 1);
      var step := rank.step + 1;
      if step % w.every != 0 {
        RoundDownSkips(step, w.every);
      }
    }
  }

  /** Changing one rank, and publishing what rank 0 saves. */
  lemma OneRankKeeps(w: Job, s: State, r: nat, rank: Rank, dir: Store)
    requires Inv(w, s) && r < w.world && RankOk(w, s.origin, r, rank) && StoreOk(w, dir)
    requires rank.entered >= s.ranks[r].entered
    requires forall q :: 0 <= q < w.world ==> rank.left <= s.ranks[q].entered
    requires if r == 0 then PublishOk(w, s.origin, dir, rank) else dir == s.dir
    ensures Inv(w, s.(ranks := s.ranks[r := rank], dir := dir))
  {
  }

  /** Nobody has left the first barrier as long as some rank has not entered it. */
  lemma BootKeeps(w: Job, s: State, r: nat)
    requires Inv(w, s) && Enabled(w, s, Boot(r))
    ensures Resume(s.dir) == s.origin
    ensures Inv(w, Apply(w, s, Boot(r)))
  {
    assert s.ranks[0].left <= s.ranks[r].entered;
    OneRankKeeps(w, s, r, Entering(s.ranks[r].(step := Resume(s.dir))), s.dir);
  }

  lemma LeaveKeeps(w: Job, s: State, r: nat)
    requires Inv(w, s) && Enabled(w, s, Leave(r))
    ensures Inv(w, Apply(w, s, Leave(r)))
  {
    if r == 0 {
      LeavingKeepsPublished(w, s.origin, s.dir, s.ranks[0]);
    }
    OneRankKeeps(w, s, r, AfterLeaving(w, r, s.ranks[r]), s.dir);
  }

  lemma ComputeKeeps(w: Job, s: State, r: nat)
    requires Inv(w, s) && Enabled(w, s, Compute(r))
    ensures Inv(w, Apply(w, s, Compute(r)))
  {
    DueGrows(w, s.origin, s.ranks[r].left);
    OneRankKeeps(w, s, r, Entering(s.ranks[r]), s.dir);
  }

  lemma DieKeeps(w: Job, s: State, r: nat)
    requires Inv(w, s) && Enabled(w, s, Die(r))
    ensures Inv(w, Apply(w, s, Die(r)))
  {
    if r == 0 {
      DueIsResumable(w, s);
    }
    OneRankKeeps(w, s, r, s.ranks[r].(phase := Dead), s.dir);
  }

  /** Whatever rank 0 is doing, what is due is resumable, and before it leaves the first barrier that is
      the origin. */
  lemma DueIsResumable(w: Job, s: State)
    requires Inv(w, s)
    ensures Resume(s.dir) >= Due(w, s.origin, s.ranks[0].entered)
    ensures s.ranks[0].left == 0 ==> Resume(s.dir) == s.origin
  {
    if s.ranks[0].phase.Saving? {
      DueGrows(w, s.origin, s.ranks[0].left);
    }
  }

  lemma SavingKeepsPublished(w: Job, origin: nat, dir: Store, rank: Rank, next: Store, after: Rank)
    requires Valid(w) && origin % w.every == 0 && rank.phase.Saving? && StoreOk(w, dir)
    requires RankOk(w, origin, 0, rank) && PublishOk(w, origin, dir, rank)
    requires rank.phase.stage == 0 ==>
      next == dir.(files := dir.files + {rank.step}) && after == rank.(phase := Saving(1))
    requires rank.phase.stage == 1 ==> next == dir.(latest := Some(rank.step)) && after == rank.(phase := Saving(2))
    requires rank.phase.stage == 2 ==> next == dir && after == Entering(rank)
    ensures StoreOk(w, next) && RankOk(w, origin, 0, after) && PublishOk(w, origin, next, after)
  {
    SaveKeepsStore(w, dir, rank.step);
    DueGrows(w, origin, rank.left);
  }

  lemma SaveKeeps(w: Job, s: State)
    requires Inv(w, s) && Enabled(w, s, Save)
    ensures Inv(w, Apply(w, s, Save))
  {
    var t := ApplySave(s);
    SavingKeepsPublished(w, s.origin, s.dir, s.ranks[0], t.dir, t.ranks[0]);
    OneRankKeeps(w, s, 0, t.ranks[0], t.dir);
  }

  lemma ActionKeeps(w: Job, s: State, a: Action)
    requires Inv(w, s) && Enabled(w, s, a)
    ensures Inv(w, Apply(w, s, a))
  {
    match a
    case Boot(r) => BootKeeps(w, s, r);
    case Leave(r) => LeaveKeeps(w, s, r);
    case Compute(r) => ComputeKeeps(w, s, r);
    case Finish(r) => OneRankKeeps(w, s, r, s.ranks[r].(phase := Done), s.dir);
    case Save => SaveKeeps(w, s);
    case Die(r) => DieKeeps(w, s, r);
    case Restart => NewGenerationOk(w, s.dir);
  }

  lemma {:induction false} RunKeeps(w: Job, s: State, actions: seq<Action>)
    requires Inv(w, s) && CanRun(w, s, actions)
    ensures Inv(w, Run(w, s, actions))
    decreases |actions|
  {
    if actions != [] {
      ActionKeeps(w, s, actions[0]);
      RunKeeps(w, Apply(w, s, actions[0]), actions[1..]);
    }
  }

  // What holds of every run.

  ghost predicate Reached(w: Job, actions: seq<Action>, s: State) {
    Valid(w) && CanRun(w, NewGeneration(w, Store(None, {})), actions) &&
    s == Run(w, NewGeneration(w, Store(None, {})), actions)
  }

  lemma ReachedIsOk(w: Job, actions: seq<Action>, s: State)
    requires Reached(w, actions, s)
    ensures Inv(w, s)
  {
    NewGenerationOk(w, Store(None, {}));
    RunKeeps(w, NewGeneration(w, Store(None, {})), actions);
  }

  lemma {:induction false} OneMore(w: Job, s: State, actions: seq<Action>, a: Action)
    requires Valid(w) && CanRun(w, s, actions) && Enabled(w, Run(w, s, actions), a)
    ensures CanRun(w, s, actions + [a]) && Run(w, s, actions + [a]) == Apply(w, Run(w, s, actions), a)
    decreases |actions|
  {
    var all := actions + [a];
    if actions == [] {
      assert all[0] == a && all[1..] == [];
    } else {
      OneMore(w, Apply(w, s, actions[0]), actions[1..], a);
      assert all[0] == actions[0] && all[1..] == actions[1..] + [a];
    }
  }

  /** At any moment of any run a rank may die, and the group may be recreated on the published files. */
  lemma CrashAtAnyMoment(w: Job, actions: seq<Action>, s: State, r: nat)
    requires Reached(w, actions, s)
    ensures r < |s.ranks| ==> Reached(w, actions + [Die(r)], s.(ranks := s.ranks[r := s.ranks[r].(phase := Dead)]))
    ensures Reached(w, actions + [Restart], NewGeneration(w, s.dir))
  {
    OneMore(w, NewGeneration(w, Store(None, {})), actions, Restart);
    if r < |s.ranks| {
      OneMore(w, NewGeneration(w, Store(None, {})), actions, Die(r));
    }
  }

  /** All ranks of a generation start from the same checkpoint, and their step counts how often they have
      left the all-reduce since. */
  lemma SameCheckpointForAll(w: Job, actions: seq<Action>, s: State, r: nat)
    requires Reached(w, actions, s) && r < |s.ranks|
    ensures s.ranks[r].phase.Booting? ==> Resume(s.dir) == s.origin
    ensures s.ranks[r].entered > 0 ==> s.ranks[r].step == s.origin + s.ranks[r].left / 2
  {
    ReachedIsOk(w, actions, s);
    if s.ranks[r].phase.Booting? {
      BootKeeps(w, s, r);
    }
  }

  /** No rank is ever more than one completed step ahead of another, alive or dead. */
  lemma LockstepWithinOne(w: Job, actions: seq<Action>, s: State, q: nat, r: nat)
    requires Reached(w, actions, s) && q < |s.ranks| && r < |s.ranks|
    requires s.ranks[q].entered > 0 && s.ranks[r].entered > 0
    ensures s.ranks[r].step <= s.ranks[q].step + 1
  {
    ReachedIsOk(w, actions, s);
    assert s.ranks[r].left <= s.ranks[q].entered <= s.ranks[q].left + 1 by {
      assert RankOk(w, s.origin, q, s.ranks[q]);
    }
  }

  /** In every reachable state no rank, alive or dead, has completed a step more than one period beyond
      what would be resumed. */
  lemma BoundedLoss(w: Job, actions: seq<Action>, s: State, r: nat)
    requires Reached(w, actions, s) && r < |s.ranks| && s.ranks[r].entered > 0
    ensures s.ranks[r].step <= Resume(s.dir) + w.every
  {
    ReachedIsOk(w, actions, s);
    DueIsResumable(w, s);
    assert s.ranks[r].left <= s.ranks[0].entered;
  }

  /** The step a new generation resumes never decreases. */
  lemma {:induction false} ProgressIsNeverLost(w: Job, s: State, actions: seq<Action>)
    requires Inv(w, s) && CanRun(w, s, actions)
    ensures Resume(s.dir) <= Resume(Run(w, s, actions).dir)
    decreases |actions|
  {
    if actions != [] {
      var t := Apply(w, s, actions[0]);
      if actions[0].Save? {
        SaveKeepsStore(w, s.dir, s.ranks[0].step);
      }
      assert Resume(s.dir) <= Resume(t.dir);
      ActionKeeps(w, s, actions[0]);
      ProgressIsNeverLost(w, t, actions[1..]);
    }
  }
}
