/** What the invariant says about every run of the training job, whatever crashes it contains. */
module TrainingTheorems {
  import opened Workload
  import opened CheckpointNames
  import opened CheckpointStore
  import opened TrainingMachine
  import opened TrainingInvariant
  import opened TrainingSteps
  import opened TrainingPreservation

  /** `s` can be reached by a new run name under this workload. */
  ghost predicate Reached(w: Workload, actions: seq<Action>, s: State)
  {
    Valid(w) && CanRun(w, Init(w), actions) && s == Run(w, Init(w), actions)
  }

  lemma ReachedIsOk(w: Workload, actions: seq<Action>, s: State)
    requires Reached(w, actions, s)
    ensures Inv(w, s)
  {
    InitOk(w);
    RunKeeps(w, Init(w), actions);
  }

  /** A rank that is not in the middle of a step. */
  predicate BetweenSteps(rank: Rank) {
    rank.phase.Running? || rank.phase.Done? || rank.phase.Saving? ||
    (rank.phase.Waiting? && rank.phase.kind in {Start, Gather, Commit})
  }

  /** Crash and resume refines the run that never crashed: after every completed step, in every
      generation of every run, a rank holds the reference state of that step. */
  lemma CrashResumeRefinement(w: Workload, actions: seq<Action>, s: State, r: nat)
    requires Reached(w, actions, s) && r < w.world && BetweenSteps(s.ranks[r])
    ensures Holds(w, s.ranks[r].step, r, s.ranks[r])
    ensures s.ranks[r].examples == s.ranks[r].step * w.accumulation
  {
    ReachedIsOk(w, actions, s);
    ExamplesCountSteps(w, s.ranks[r].step);
  }

  /** So the history of crashes cannot be told from the training state: two runs of the same
      arguments that have completed the same step hold the same state. */
  lemma HistoriesAgree(w: Workload, actions: seq<Action>, s: State, others: seq<Action>, t: State, r: nat)
    requires Reached(w, actions, s) && Reached(w, others, t) && r < w.world
    requires BetweenSteps(s.ranks[r]) && BetweenSteps(t.ranks[r]) && s.ranks[r].step == t.ranks[r].step
    ensures s.ranks[r].model == t.ranks[r].model && s.ranks[r].rng == t.ranks[r].rng
    ensures s.ranks[r].tokens == t.ranks[r].tokens && s.ranks[r].examples == t.ranks[r].examples
  {
    CrashResumeRefinement(w, actions, s, r);
    CrashResumeRefinement(w, others, t, r);
  }

  /** At every crash point, whatever the crash tears, the file a new generation would load is complete
      and holds the reference state of its step; if there is none, nothing had been completed. */
  lemma CrashConsistentStore(w: Workload, actions: seq<Action>, s: State, torn: set<FileName>)
    requires Reached(w, actions, s)
    ensures var dir := AfterCrash(s.dir, torn);
      match LatestCheckpoint(dir)
      case None => ResumeStep(s.dir) == 0
      case Some(file) =>
        dir[file] == Synced(PayloadAt(w, ResumeStep(s.dir))) && SavedStep(w, ResumeStep(s.dir)) &&
        (file == Latest || file == StepFile(ResumeStep(s.dir)))
  {
    ReachedIsOk(w, actions, s);
    CrashKeepsStore(w, s.dir, torn);
    StoreHoldsResumable(w, AfterCrash(s.dir, torn));
  }

  lemma StoreHoldsResumable(w: Workload, dir: Directory)
    requires Valid(w) && StoreOk(w, dir)
    ensures match LatestCheckpoint(dir)
      case None => ResumeStep(dir) == 0
      case Some(file) =>
        dir[file] == Synced(PayloadAt(w, ResumeStep(dir))) && SavedStep(w, ResumeStep(dir)) &&
        (file == Latest || file == StepFile(ResumeStep(dir)))
  {
  }

  /** Rank 0's file-system calls for one target, undisturbed. */
  function FiveCalls(s: State, random: string): State
    requires |s.ranks| > 0 && |s.logs| > 0 && s.ranks[0].phase.Saving?
    requires s.ranks[0].phase.io.Create?
  {
    var s1 := ApplySave(s, random);
    var s2 := ApplySave(s1, random);
    var s3 := ApplySave(s2, random);
    var s4 := ApplySave(s3, random);
    ApplySave(s4, random)
  }

  /** Undisturbed, the single calls of the machine do what `AtomicTorchSave` does as a whole. */
  lemma FiveCallsSave(s: State, random: string)
    requires |s.ranks| > 0 && |s.logs| > 0 && s.ranks[0].phase.Saving? && s.ranks[0].phase.io.Create?
    requires var target := s.ranks[0].phase.io.target; !target.Temp? && Temp(target, random) !in s.dir
    ensures var target, rngs := s.ranks[0].phase.io.target, s.ranks[0].phase.rngs;
      FiveCalls(s, random) == Goto(s, rngs, if target.Latest? then Announce else Create(Latest),
                                   s.dir[target := Synced(PayloadOf(s.ranks[0], rngs))])
  {
    var target, rngs := s.ranks[0].phase.io.target, s.ranks[0].phase.rngs;
    var payload, temp := PayloadOf(s.ranks[0], rngs), Temp(target, random);
    var written := s.dir[temp := Synced(payload)];
    assert s.dir[temp := Torn][temp := Unsynced(payload)][temp := Synced(payload)] == written;
    assert written[target := Synced(payload)] - {temp} == s.dir[target := Synced(payload)];
    assert s.dir[target := Synced(payload)] - {temp} == s.dir[target := Synced(payload)];
  }

  ghost function LatestStep(dir: Directory): nat {
    if Latest in dir && !dir[Latest].Torn? then dir[Latest].payload.step else 0
  }

  lemma SaveNeverLosesProgress(w: Workload, s: State, random: string)
    requires Inv(w, s) && Enabled(w, s, Save(random))
    ensures LatestStep(s.dir) <= LatestStep(ApplySave(s, random).dir)
    ensures ResumeStep(s.dir) <= ResumeStep(ApplySave(s, random).dir)
  {
    var io := s.ranks[0].phase.io;
    if io.Replace? {
      ReplaceKeepsStore(w, s, random);
    } else if !io.Announce? {
      QuietSave(w, s, random);
      TempsKeepStore(w, s.dir, ApplySave(s, random).dir);
    }
  }

  lemma OtherActionsKeepProgress(w: Workload, s: State, a: Action)
    requires Valid(w) && Sized(w, s) && StoreOk(w, s.dir) && Enabled(w, s, a) && !a.Save?
    ensures LatestStep(Apply(w, s, a).dir) == LatestStep(s.dir)
    ensures ResumeStep(Apply(w, s, a).dir) == ResumeStep(s.dir)
  {
    if a.Raise? {
      RaiseTouches(s);
      TempsKeepStore(w, s.dir, ApplyRaise(s).dir);
    } else if a.Restart? {
      CrashKeepsStore(w, s.dir, a.torn);
    } else {
      FilesStay(w, s, a);
    }
  }

  lemma FilesStay(w: Workload, s: State, a: Action)
    requires Valid(w) && Sized(w, s) && Enabled(w, s, a) && !a.Save? && !a.Raise? && !a.Restart?
    ensures Apply(w, s, a).dir == s.dir
  {
  }

  lemma ActionNeverLosesProgress(w: Workload, s: State, a: Action)
    requires Inv(w, s) && Enabled(w, s, a)
    ensures LatestStep(s.dir) <= LatestStep(Apply(w, s, a).dir)
    ensures ResumeStep(s.dir) <= ResumeStep(Apply(w, s, a).dir)
  {
    if a.Save? {
      SaveNeverLosesProgress(w, s, a.random);
    } else {
      OtherActionsKeepProgress(w, s, a);
    }
  }

  /** Neither the step in `latest.pt` nor the step a new generation resumes ever decreases, across
      all generations of a run. */
  lemma {:induction false} ProgressIsNeverLost(w: Workload, s: State, actions: seq<Action>)
    requires Inv(w, s) && CanRun(w, s, actions)
    ensures LatestStep(s.dir) <= LatestStep(Run(w, s, actions).dir)
    ensures ResumeStep(s.dir) <= ResumeStep(Run(w, s, actions).dir)
    decreases |actions|
  {
    if actions != [] {
      var t := Apply(w, s, actions[0]);
      ActionNeverLosesProgress(w, s, actions[0]);
      ActionKeeps(w, s, actions[0]);
      ProgressIsNeverLost(w, t, actions[1..]);
    }
  }

  /** Until every rank has entered the first barrier the directory cannot change what is resumed, so
      all ranks of a generation load the same checkpoint. */
  lemma SameCheckpointForAll(w: Workload, actions: seq<Action>, s: State, r: nat)
    requires Reached(w, actions, s) && r < w.world
    ensures s.ranks[r].entered == 0 ==> ResumeStep(s.dir) == s.origin
    ensures s.ranks[r].phase.Located? ==> s.ranks[r].phase.file == LatestCheckpoint(s.dir)
    ensures s.ranks[r].phase == Waiting(Start) ==> Holds(w, s.origin, r, s.ranks[r])
  {
    ReachedIsOk(w, actions, s);
    assert s.ranks[0].left <= s.ranks[r].entered;
  }

  /** Collectives never mix: what two ranks contribute under the same call number is for the same
      purpose in the same step, and a rank leaves only after all have entered. */
  lemma CollectivesMatch(w: Workload, actions: seq<Action>, s: State, c: nat, q: nat, r: nat)
    requires Reached(w, actions, s) && q < w.world && r < w.world
    requires (c, q) in s.net && (c, r) in s.net
    ensures Fits(s.net[(c, q)], SlotOf(w, s.origin, c).kind) && Fits(s.net[(c, r)], SlotOf(w, s.origin, c).kind)
    ensures s.ranks[q].left <= s.ranks[r].entered
  {
    ReachedIsOk(w, actions, s);
    SlotStepIsPositive(w, s.origin, c);
  }

  lemma SlotStepIsPositive(w: Workload, origin: nat, c: nat)
    requires w.every >= 1
    ensures SlotOf(w, origin, c).kind.Gradients? || SlotOf(w, origin, c).kind.Metrics? ==>
      SlotOf(w, origin, c).step >= 1
  {
  }

  lemma {:induction false} SlotStepsGrow(w: Workload, origin: nat, c: nat, d: nat)
    requires w.every >= 1 && c <= d
    ensures SlotOf(w, origin, c).step <= SlotOf(w, origin, d).step
    decreases d
  {
    if c < d {
      SlotStepsGrow(w, origin, c, d - 1);
    }
  }

  /** A live rank that has joined the group. */
  predicate Joined(rank: Rank) {
    rank.entered >= 1 && !rank.phase.Dead?
  }

  /** Where a rank stands, in terms of the collectives it has left and entered. */
  lemma CompletedBySlots(w: Workload, origin: nat, r: nat, rank: Rank)
    requires w.every >= 1 && r < w.world && RankOk(w, origin, r, rank) && Joined(rank)
    ensures rank.left == 0 ==> Completed(rank) == origin
    ensures rank.left >= 1 ==> Completed(rank) <= SlotOf(w, origin, rank.left - 1).step
    ensures Completed(rank) + 1 >= SlotOf(w, origin, rank.entered - 1).step
  {
    if rank.left >= 1 {
      assert SlotOf(w, origin, rank.left) == Following(w, SlotOf(w, origin, rank.left - 1));
    }
  }

  /** No rank is ever more than one step ahead of another. */
  lemma LockstepWithinOne(w: Workload, actions: seq<Action>, s: State, q: nat, r: nat)
    requires Reached(w, actions, s) && q < w.world && r < w.world
    requires Joined(s.ranks[q]) && Joined(s.ranks[r])
    ensures Completed(s.ranks[r]) <= Completed(s.ranks[q]) + 1
  {
    assert RankOk(w, s.origin, q, s.ranks[q]) && RankOk(w, s.origin, r, s.ranks[r]) &&
           s.ranks[r].left <= s.ranks[q].entered by {
      ReachedIsOk(w, actions, s);
    }
    RanksWithinOne(w, s.origin, q, s.ranks[q], r, s.ranks[r]);
  }

  lemma RanksWithinOne(w: Workload, origin: nat, q: nat, other: Rank, r: nat, rank: Rank)
    requires w.every >= 1 && q < w.world && r < w.world
    requires RankOk(w, origin, q, other) && RankOk(w, origin, r, rank) && Joined(other) && Joined(rank)
    requires rank.left <= other.entered
    ensures Completed(rank) <= Completed(other) + 1
  {
    var c := if rank.left >= 1 then rank.left - 1 else 0;
    assert Completed(rank) <= SlotOf(w, origin, c).step by {
      CompletedBySlots(w, origin, r, rank);
    }
    assert SlotOf(w, origin, other.entered - 1).step <= Completed(other) + 1 by {
      CompletedBySlots(w, origin, q, other);
    }
    SlotStepsGrow(w, origin, c, other.entered - 1);
  }

  lemma DurableLagsByOnePeriod(w: Workload, origin: nat, c: nat)
    requires w.every >= 1
    ensures SlotOf(w, origin, c).step <= Durable(w, SlotOf(w, origin, c)) + w.every
  {
  }

  /** In every reachable state, what a crash would lose is at most one checkpoint period: no rank has
      completed a step beyond the resumable one plus `checkpoint_every`. */
  lemma BoundedLoss(w: Workload, actions: seq<Action>, s: State, r: nat)
    requires Reached(w, actions, s) && r < w.world && Joined(s.ranks[r])
    ensures Completed(s.ranks[r]) <= ResumeStep(s.dir) + w.every
  {
    ReachedIsOk(w, actions, s);
    LossIsBounded(w, s, r);
  }

  lemma LossIsBounded(w: Workload, s: State, r: nat)
    requires Inv(w, s) && r < w.world && Joined(s.ranks[r])
    ensures Completed(s.ranks[r]) <= ResumeStep(s.dir) + w.every
  {
    assert RankOk(w, s.origin, r, s.ranks[r]);
    LeftIsResumable(w, s, r);
    LossOfRank(w, s.origin, r, s.ranks[r], ResumeStep(s.dir));
  }

  lemma LeftIsResumable(w: Workload, s: State, r: nat)
    requires Inv(w, s) && r < w.world && Joined(s.ranks[r])
    ensures if s.ranks[r].left >= 1 then Durable(w, SlotOf(w, s.origin, s.ranks[r].left - 1)) <= ResumeStep(s.dir)
      else s.origin <= ResumeStep(s.dir)
  {
    if s.ranks[r].left >= 1 {
      LeftIsDurable(w, s, r);
    } else {
      ResumableSinceStart(w, s);
    }
  }

  lemma LossOfRank(w: Workload, origin: nat, r: nat, rank: Rank, resumable: nat)
    requires w.every >= 1 && r < w.world && RankOk(w, origin, r, rank) && Joined(rank)
    requires if rank.left >= 1 then Durable(w, SlotOf(w, origin, rank.left - 1)) <= resumable else origin <= resumable
    ensures Completed(rank) <= resumable + w.every
  {
    assert if rank.left >= 1 then Completed(rank) <= SlotOf(w, origin, rank.left - 1).step
      else Completed(rank) == origin by {
      CompletedBySlots(w, origin, r, rank);
    }
    if rank.left >= 1 {
      DurableLagsByOnePeriod(w, origin, rank.left - 1);
    }
  }

  /** Nothing older is ever lost: a step that any rank of any generation had completed is, at every
      later moment of the run, at most one checkpoint period beyond what would be resumed. */
  lemma LossStaysBounded(w: Workload, actions: seq<Action>, s: State, r: nat, later: seq<Action>)
    requires Reached(w, actions, s) && r < w.world && Joined(s.ranks[r]) && CanRun(w, s, later)
    ensures Completed(s.ranks[r]) <= ResumeStep(Run(w, s, later).dir) + w.every
  {
    BoundedLoss(w, actions, s, r);
    assert Inv(w, s) by { ReachedIsOk(w, actions, s); }
    ProgressIsNeverLost(w, s, later);
  }

  lemma LeftIsDurable(w: Workload, s: State, r: nat)
    requires Inv(w, s) && r < w.world && s.ranks[r].left >= 1
    ensures Durable(w, SlotOf(w, s.origin, s.ranks[r].left - 1)) <= ResumeStep(s.dir)
  {
    assert s.ranks[r].left <= s.ranks[0].entered;
    DurableIsMonotone(w, s.origin, s.ranks[r].left - 1, s.ranks[0].entered - 1);
    EnteredIsDurable(w, s);
  }

  lemma ResumableSinceStart(w: Workload, s: State)
    requires Inv(w, s)
    ensures s.origin <= ResumeStep(s.dir)
  {
    if s.ranks[0].left > 0 {
      assert s.ranks[0].left <= s.ranks[0].entered;
      EnteredIsDurable(w, s);
      DurableIsMonotone(w, s.origin, 0, s.ranks[0].entered - 1);
    }
  }
}
