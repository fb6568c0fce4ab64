/** The full invariant: publication, logs, crashes and new generations. */
module TrainingPreservation {
  import opened Decimal
  import opened Workload
  import opened CheckpointNames
  import opened CheckpointStore
  import opened TrainingLog
  import opened TrainingMachine
  import opened TrainingInvariant
  import opened TrainingSteps

  /** `t` differs from `s` only in rank `r`, its log and the messages. */
  ghost predicate OnlyRank(w: Workload, s: State, t: State, r: nat)
    requires Sized(w, s) && Sized(w, t) && r < w.world
  {
    t.dir == s.dir && t.origin == s.origin &&
    t.ranks == s.ranks[r := t.ranks[r]] && t.logs == s.logs[r := t.logs[r]]
  }

  lemma OneRankKeeps(w: Workload, s: State, t: State, r: nat)
    requires Inv(w, s) && Lockstep(w, t) && r < w.world && OnlyRank(w, s, t, r)
    requires t.ranks[r].phase.Located? ==> t.ranks[r].phase.file == LatestCheckpoint(s.dir)
    requires ResumeLogOk(s.origin, r, t.ranks[r], t.logs[r])
    requires r == 0 ==> PublishOk(w, s.origin, s.dir, t.ranks[0])
    requires r == 0 ==> ProgressLogOk(w, s.origin, s.dir, t.ranks[0], t.logs[0])
    ensures Inv(w, t)
  {
  }

  lemma NewGenerationOk(w: Workload, dir: Directory)
    requires Valid(w) && StoreOk(w, dir)
    ensures Inv(w, NewGeneration(w, dir))
  {
    var s := NewGeneration(w, dir);
    assert s.origin % w.every == 0;
    forall r | 0 <= r < w.world
      ensures RankOk(w, s.origin, r, s.ranks[r]) && ResumeLogOk(s.origin, r, s.ranks[r], s.logs[r])
    {
      assert s.ranks[r] == Booted(w, r);
    }
  }

  lemma InitOk(w: Workload)
    requires Valid(w)
    ensures Inv(w, Init(w))
  {
    NewGenerationOk(w, map[]);
  }

  lemma CrashKeepsStore(w: Workload, dir: Directory, torn: set<FileName>)
    requires Valid(w) && StoreOk(w, dir)
    ensures StoreOk(w, AfterCrash(dir, torn)) && ResumeStep(AfterCrash(dir, torn)) == ResumeStep(dir)
    ensures Latest in AfterCrash(dir, torn) <==> Latest in dir
    ensures Latest in dir ==> AfterCrash(dir, torn)[Latest] == dir[Latest]
  {
    assert WithoutTemps(AfterCrash(dir, torn)) == WithoutTemps(dir);
    TempsKeepStore(w, dir, AfterCrash(dir, torn));
  }

  /** One rank moves on without entering a collective, publishing or logging anything. */
  lemma RankMoveKeeps(w: Workload, s: State, r: nat, rank: Rank)
    requires Inv(w, s) && r < w.world && RankOk(w, s.origin, r, rank)
    requires rank.entered == s.ranks[r].entered && rank.left == s.ranks[r].left
    requires rank.phase.Located? ==> rank.phase.file == LatestCheckpoint(s.dir)
    requires r == 0 ==> PublishOk(w, s.origin, s.dir, rank) && ProgressLogOk(w, s.origin, s.dir, rank, s.logs[0])
    ensures Inv(w, WithRank(s, r, rank))
  {
    var t := WithRank(s, r, rank);
    assert Lockstep(w, t) by { MoveKeepsLockstep(w, s, r, rank); }
    assert ResumeLogOk(s.origin, r, rank, s.logs[r]) by {
      assert ResumeLogOk(s.origin, r, s.ranks[r], s.logs[r]);
    }
    OneRankKeeps(w, s, t, r);
  }

  lemma LocateKeeps(w: Workload, s: State, r: nat)
    requires Inv(w, s) && Enabled(w, s, Locate(r))
    ensures Inv(w, Apply(w, s, Locate(r)))
  {
    assert RankOk(w, s.origin, r, s.ranks[r]);
    RankMoveKeeps(w, s, r, s.ranks[r].(phase := Located(LatestCheckpoint(s.dir))));
  }

  lemma RestoreKeeps(w: Workload, s: State, r: nat)
    requires Inv(w, s) && Enabled(w, s, Restore(r))
    ensures Inv(w, Apply(w, s, Restore(r)))
  {
    var t := Apply(w, s, Restore(r));
    RestoreKeepsLockstep(w, s, r);
    RestoreTouches(s, r);
    RestoredLog(w, s.origin, s.dir, r, s.ranks[r], t.ranks[r], s.logs[r], t.logs[r]);
    OneRankKeeps(w, s, t, r);
  }

  lemma RestoreTouches(s: State, r: nat)
    requires r < |s.ranks| == |s.logs| && s.ranks[r].phase.Located?
    ensures ApplyRestore(s, r).dir == s.dir && ApplyRestore(s, r).origin == s.origin
    ensures ApplyRestore(s, r).ranks == s.ranks[r := ApplyRestore(s, r).ranks[r]]
    ensures ApplyRestore(s, r).logs == s.logs[r := ApplyRestore(s, r).logs[r]]
  {
  }

  /** A rank that has just loaded the checkpoint says so, and rank 0 has nothing else to say. */
  lemma RestoredLog(w: Workload, origin: nat, dir: Directory, r: nat, rank: Rank, after: Rank, log: Log, said: Log)
    requires w.every >= 1 && rank.phase.Located? && rank.left == rank.entered == 0 && rank.step == 0
    requires after.phase == Waiting(Start) && after.step == origin && after.entered == 1 && after.left == 0
    requires ResumeLogOk(origin, r, rank, log)
    requires said == if origin > 0 then log + [ResumeLine(origin, r)] else log
    ensures ResumeLogOk(origin, r, after, said)
    ensures PublishOk(w, origin, dir, rank) ==> PublishOk(w, origin, dir, after)
    ensures ProgressLogOk(w, origin, dir, rank, log) ==> ProgressLogOk(w, origin, dir, after, said)
  {
    Append(log, ResumeLine(origin, r), r);
  }

  lemma ComputeKeeps(w: Workload, s: State, r: nat)
    requires Inv(w, s) && Enabled(w, s, Compute(r))
    ensures Inv(w, Apply(w, s, Compute(r)))
  {
    var t := Apply(w, s, Compute(r));
    ComputeKeepsLockstep(w, s, r);
    ComputeTouches(w, s, r);
    if r == 0 {
      ComputeKeepsPublished(w, s.origin, s.dir, s.ranks[0], t.ranks[0], s.logs[0]);
    }
    OneRankKeeps(w, s, t, r);
  }

  lemma ComputeTouches(w: Workload, s: State, r: nat)
    requires Valid(w) && Sized(w, s) && Enabled(w, s, Compute(r))
    ensures Sized(w, ApplyCompute(w, s, r)) && OnlyRank(w, s, ApplyCompute(w, s, r), r)
    ensures ApplyCompute(w, s, r).logs == s.logs
    ensures Started(s.ranks[r], ApplyCompute(w, s, r).ranks[r])
  {
  }

  predicate Started(rank: Rank, after: Rank) {
    after.phase == Waiting(Gradients) && after.entered == rank.entered + 1 && after.left == rank.left &&
    after.step == rank.step + 1
  }

  lemma ComputeKeepsPublished(w: Workload, origin: nat, dir: Directory, rank: Rank, after: Rank, log: Log)
    requires w.every >= 1 && origin % w.every == 0 && rank.phase.Running? && Started(rank, after)
    requires rank.entered == rank.left >= 1
    requires SlotOf(w, origin, rank.left) == Slot(Gradients, rank.step + 1)
    requires PublishOk(w, origin, dir, rank) && ProgressLogOk(w, origin, dir, rank, log)
    ensures PublishOk(w, origin, dir, after) && ProgressLogOk(w, origin, dir, after, log)
  {
    NextSlotKeepsDurable(w, origin, rank);
  }

  /** At the loop top everything due is durable, so entering the next step asks for nothing more. */
  lemma NextSlotKeepsDurable(w: Workload, origin: nat, rank: Rank)
    requires w.every >= 1 && origin % w.every == 0
    requires rank.entered >= 1 && SlotOf(w, origin, rank.entered) == Slot(Gradients, rank.step + 1)
    ensures Durable(w, SlotOf(w, origin, rank.entered)) == Durable(w, SlotOf(w, origin, rank.entered - 1))
  {
    var x := SlotOf(w, origin, rank.entered - 1);
    if x.kind.Metrics? {
      RoundDownSkips(x.step, w.every);
    }
  }

  lemma FinishKeeps(w: Workload, s: State, r: nat)
    requires Inv(w, s) && Enabled(w, s, Finish(r))
    ensures Inv(w, Apply(w, s, Finish(r)))
  {
    assert RankOk(w, s.origin, r, s.ranks[r]);
    if r == 0 {
      FinishingKeepsPublished(w, s.origin, s.dir, s.ranks[0], s.logs[0]);
    }
    RankMoveKeeps(w, s, r, s.ranks[r].(phase := Done));
  }

  lemma FinishingKeepsPublished(w: Workload, origin: nat, dir: Directory, rank: Rank, log: Log)
    requires w.every >= 1 && rank.phase.Running?
    requires PublishOk(w, origin, dir, rank) && ProgressLogOk(w, origin, dir, rank, log)
    ensures PublishOk(w, origin, dir, rank.(phase := Done))
    ensures ProgressLogOk(w, origin, dir, rank.(phase := Done), log)
  {
  }

  /** Whatever rank 0 does next, what it has entered so far is already durable. */
  lemma EnteredIsDurable(w: Workload, s: State)
    requires Inv(w, s) && s.ranks[0].entered > 0
    ensures Durable(w, SlotOf(w, s.origin, s.ranks[0].entered - 1)) <= ResumeStep(s.dir)
  {
    var rank := s.ranks[0];
    if rank.left == 0 {
      assert rank.entered == 1;
    }
  }

  lemma DieKeeps(w: Workload, s: State, r: nat)
    requires Inv(w, s) && Enabled(w, s, Die(r))
    ensures Inv(w, Apply(w, s, Die(r)))
  {
    var dead := s.ranks[r].(phase := Dead);
    assert RankOk(w, s.origin, r, dead) by { assert RankOk(w, s.origin, r, s.ranks[r]); }
    if r == 0 {
      ZeroDies(w, s);
    }
    RankMoveKeeps(w, s, r, dead);
  }

  lemma ZeroDies(w: Workload, s: State)
    requires Inv(w, s)
    ensures PublishOk(w, s.origin, s.dir, s.ranks[0].(phase := Dead))
    ensures ProgressLogOk(w, s.origin, s.dir, s.ranks[0].(phase := Dead), s.logs[0])
  {
    assert s.ranks[0].entered > 0 ==>
      Durable(w, SlotOf(w, s.origin, s.ranks[0].entered - 1)) <= ResumeStep(s.dir) by {
      if s.ranks[0].entered > 0 {
        EnteredIsDurable(w, s);
      }
    }
    DyingKeepsPublished(w, s.origin, s.dir, s.dir, s.ranks[0], s.logs[0]);
  }

  /** Nothing more is expected of a dead rank 0 than what was durable already. */
  lemma DyingKeepsPublished(w: Workload, origin: nat, dir: Directory, dir': Directory, rank: Rank, log: Log)
    requires w.every >= 1 && PublishOk(w, origin, dir, rank) && ProgressLogOk(w, origin, dir, rank, log)
    requires rank.entered > 0 ==> Durable(w, SlotOf(w, origin, rank.entered - 1)) <= ResumeStep(dir)
    requires ResumeStep(dir') == ResumeStep(dir) && (Latest in dir ==> Latest in dir' && dir'[Latest] == dir[Latest])
    ensures PublishOk(w, origin, dir', rank.(phase := Dead))
    ensures ProgressLogOk(w, origin, dir', rank.(phase := Dead), log)
  {
  }

  lemma LeaveKeeps(w: Workload, s: State, r: nat)
    requires Inv(w, s) && Enabled(w, s, Leave(r))
    ensures Inv(w, Apply(w, s, Leave(r)))
  {
    var t := Apply(w, s, Leave(r));
    LeaveKeepsLockstep(w, s, r);
    LeaveTouches(w, s, r);
    Append(s.logs[r], StepLine(s.ranks[r].step), r);
    if r == 0 {
      LeaveKeepsPublished(w, s.origin, s.dir, s.ranks[0], t.ranks[0], s.logs[0]);
    }
    OneRankKeeps(w, s, t, r);
  }

  /** How leaving a collective moves a rank, apart from the values it computes. */
  predicate Left(w: Workload, r: nat, rank: Rank, after: Rank)
    requires w.every >= 1 && rank.phase.Waiting?
  {
    after.left == rank.left + 1 && after.step == rank.step &&
    match rank.phase.kind
    case Start => after.phase == Running && after.entered == rank.entered
    case Gradients => after.phase == Waiting(Metrics) && after.entered == rank.entered + 1
    case Metrics =>
      if rank.step % w.every == 0 then after.phase == Waiting(Gather) && after.entered == rank.entered + 1
      else after.phase == Running && after.entered == rank.entered
    case Gather =>
      if r == 0 then
        after.phase.Saving? && after.phase.io == Create(StepFile(rank.step)) && after.entered == rank.entered
      else after.phase == Waiting(Commit) && after.entered == rank.entered + 1
    case Commit => after.phase == Running && after.entered == rank.entered
  }

  function LogAfterLeave(r: nat, rank: Rank, log: Log): Log
    requires rank.phase.Waiting?
  {
    if r == 0 && rank.phase.kind.Metrics? then log + [StepLine(rank.step)] else log
  }

  lemma LeaveTouches(w: Workload, s: State, r: nat)
    requires Valid(w) && Sized(w, s) && Enabled(w, s, Leave(r))
    ensures Sized(w, ApplyLeave(w, s, r)) && OnlyRank(w, s, ApplyLeave(w, s, r), r)
    ensures Left(w, r, s.ranks[r], ApplyLeave(w, s, r).ranks[r])
    ensures ApplyLeave(w, s, r).logs[r] == LogAfterLeave(r, s.ranks[r], s.logs[r])
  {
  }

  lemma LeaveKeepsPublished(w: Workload, origin: nat, dir: Directory, rank: Rank, after: Rank, log: Log)
    requires w.every >= 1 && origin % w.every == 0 && rank.phase.Waiting? && Left(w, 0, rank, after)
    requires rank.entered == rank.left + 1
    requires SlotOf(w, origin, rank.left) == Slot(rank.phase.kind, rank.step)
    requires PublishOk(w, origin, dir, rank) && ProgressLogOk(w, origin, dir, rank, log)
    ensures PublishOk(w, origin, dir, after)
    ensures ProgressLogOk(w, origin, dir, after, LogAfterLeave(0, rank, log))
  {
    var x := Slot(rank.phase.kind, rank.step);
    assert SlotOf(w, origin, rank.left + 1) == Following(w, x);
    if x.kind.Metrics? {
      LeaveMetricsKeepsPublished(w, origin, dir, rank, after, log);
    } else if x.kind.Gather? {
      LeaveGatherKeepsPublished(w, origin, dir, rank, after, log);
    } else if x.kind.Gradients? {
      LeaveGradientsKeepsPublished(w, origin, dir, rank, after, log);
    } else {
      LeaveBarrierKeepsPublished(w, origin, dir, rank, after, log);
    }
  }

  lemma LeaveGradientsKeepsPublished(w: Workload, origin: nat, dir: Directory, rank: Rank, after: Rank, log: Log)
    requires w.every >= 1 && origin % w.every == 0 && rank.phase == Waiting(Gradients) && Left(w, 0, rank, after)
    requires rank.entered == rank.left + 1
    requires SlotOf(w, origin, rank.left) == Slot(Gradients, rank.step)
    requires PublishOk(w, origin, dir, rank) && ProgressLogOk(w, origin, dir, rank, log)
    ensures PublishOk(w, origin, dir, after) && ProgressLogOk(w, origin, dir, after, log)
  {
    assert SlotOf(w, origin, rank.left + 1) == Slot(Metrics, rank.step);
  }

  lemma LeaveBarrierKeepsPublished(w: Workload, origin: nat, dir: Directory, rank: Rank, after: Rank, log: Log)
    requires w.every >= 1 && origin % w.every == 0 && rank.phase.Waiting? && Left(w, 0, rank, after)
    requires rank.phase.kind.Start? || rank.phase.kind.Commit?
    requires rank.entered == rank.left + 1
    requires SlotOf(w, origin, rank.left) == Slot(rank.phase.kind, rank.step)
    requires PublishOk(w, origin, dir, rank) && ProgressLogOk(w, origin, dir, rank, log)
    ensures PublishOk(w, origin, dir, after) && ProgressLogOk(w, origin, dir, after, log)
  {
  }

  lemma LeaveGatherKeepsPublished(w: Workload, origin: nat, dir: Directory, rank: Rank, after: Rank, log: Log)
    requires w.every >= 1 && origin % w.every == 0 && rank.phase == Waiting(Gather) && Left(w, 0, rank, after)
    requires rank.entered == rank.left + 1
    requires SlotOf(w, origin, rank.left) == Slot(Gather, rank.step)
    requires PublishOk(w, origin, dir, rank) && ProgressLogOk(w, origin, dir, rank, log)
    ensures PublishOk(w, origin, dir, after) && ProgressLogOk(w, origin, dir, after, log)
  {
  }

  lemma LeaveMetricsKeepsPublished(w: Workload, origin: nat, dir: Directory, rank: Rank, after: Rank, log: Log)
    requires w.every >= 1 && origin % w.every == 0 && rank.phase == Waiting(Metrics) && Left(w, 0, rank, after)
    requires rank.entered == rank.left + 1
    requires SlotOf(w, origin, rank.left) == Slot(Metrics, rank.step)
    requires PublishOk(w, origin, dir, rank) && ProgressLogOk(w, origin, dir, rank, log)
    ensures PublishOk(w, origin, dir, after)
    ensures ProgressLogOk(w, origin, dir, after, log + [StepLine(rank.step)])
  {
    Append(log, StepLine(rank.step), 0);
    assert SlotOf(w, origin, rank.left + 1) == Following(w, Slot(Metrics, rank.step));
  }

  lemma NobodyReads(w: Workload, s: State)
    requires Inv(w, s) && s.ranks[0].left >= 1
    ensures forall r :: 0 <= r < w.world ==> !s.ranks[r].phase.Located?
  {
    forall r | 0 <= r < w.world
      ensures !s.ranks[r].phase.Located?
    {
      assert s.ranks[0].left <= s.ranks[r].entered;
    }
  }

  /** A step of rank 0's save keeps the invariant if it keeps what the invariant says about the
      directory and about rank 0. */
  lemma SaveStepKeeps(w: Workload, s: State, t: State)
    requires Inv(w, s) && s.ranks[0].phase.Saving? && Lockstep(w, t)
    requires t == s.(dir := t.dir, ranks := s.ranks[0 := t.ranks[0]])
    requires t.ranks[0] == s.ranks[0].(phase := t.ranks[0].phase) && !t.ranks[0].phase.Located?
    requires StoreOk(w, t.dir) && PublishOk(w, s.origin, t.dir, t.ranks[0])
    requires ProgressLogOk(w, s.origin, t.dir, t.ranks[0], s.logs[0])
    ensures Inv(w, t)
  {
    NobodyReads(w, s);
  }

  /** What moving on inside a save keeps, while what would be resumed stays the same. */
  lemma SavingOnKeepsPublished(w: Workload, origin: nat, dir: Directory, dir': Directory, rank: Rank, after: Rank,
                               log: Log)
    requires w.every >= 1 && rank.phase.Saving? && after.phase.Saving? && after == rank.(phase := after.phase)
    requires rank.left > 0
    requires PublishOk(w, origin, dir, rank) && ProgressLogOk(w, origin, dir, rank, log)
    requires SaveProgress(after.phase.io) == SaveProgress(rank.phase.io)
    requires IoOk(dir', rank.step, PayloadAt(w, rank.step), after.phase.io)
    requires ResumeStep(dir') == ResumeStep(dir) && (Latest in dir <==> Latest in dir')
    requires Latest in dir ==> dir'[Latest] == dir[Latest]
    ensures PublishOk(w, origin, dir', after) && ProgressLogOk(w, origin, dir', after, log)
  {
  }

  /** A file-system call that only touches temporary files. */
  lemma QuietSaveKeeps(w: Workload, s: State, t: State)
    requires Inv(w, s) && s.ranks[0].phase.Saving? && Lockstep(w, t)
    requires t == s.(dir := t.dir, ranks := s.ranks[0 := t.ranks[0]])
    requires WithoutTemps(t.dir) == WithoutTemps(s.dir)
    requires t.ranks[0] == s.ranks[0].(phase := t.ranks[0].phase) && t.ranks[0].phase.Saving?
    requires SaveProgress(t.ranks[0].phase.io) == SaveProgress(s.ranks[0].phase.io)
    requires IoOk(t.dir, s.ranks[0].step, PayloadAt(w, s.ranks[0].step), t.ranks[0].phase.io)
    ensures Inv(w, t)
  {
    TempsKeepStore(w, s.dir, t.dir);
    SavingOnKeepsPublished(w, s.origin, s.dir, t.dir, s.ranks[0], t.ranks[0], s.logs[0]);
    SaveStepKeeps(w, s, t);
  }

  lemma RaiseKeeps(w: Workload, s: State)
    requires Inv(w, s) && Enabled(w, s, Raise)
    ensures Inv(w, Apply(w, s, Raise))
  {
    var t := ApplyRaise(s);
    RaiseTouches(s);
    assert Lockstep(w, t) by {
      MoveKeepsLockstep(w, s, 0, s.ranks[0].(phase := Dead));
      LockstepIgnoresFiles(w, WithRank(s, 0, s.ranks[0].(phase := Dead)), t.dir);
    }
    DyingInSaveKeepsPublished(w, s, t.dir);
    SaveStepKeeps(w, s, t);
  }

  lemma DyingInSaveKeepsPublished(w: Workload, s: State, dir: Directory)
    requires Inv(w, s) && s.ranks[0].phase.Saving? && WithoutTemps(dir) == WithoutTemps(s.dir)
    ensures StoreOk(w, dir) && PublishOk(w, s.origin, dir, s.ranks[0].(phase := Dead))
    ensures ProgressLogOk(w, s.origin, dir, s.ranks[0].(phase := Dead), s.logs[0])
  {
    TempsKeepStore(w, s.dir, dir);
    EnteredIsDurable(w, s);
    DyingKeepsPublished(w, s.origin, s.dir, dir, s.ranks[0], s.logs[0]);
  }

  lemma LockstepIgnoresFiles(w: Workload, s: State, dir: Directory)
    requires Lockstep(w, s)
    ensures Lockstep(w, s.(dir := dir))
  {
  }

  lemma RaiseTouches(s: State)
    requires |s.ranks| > 0 && s.ranks[0].phase.Saving?
    ensures var t := ApplyRaise(s);
      t == WithRank(s, 0, s.ranks[0].(phase := Dead)).(dir := t.dir) && WithoutTemps(t.dir) == WithoutTemps(s.dir)
  {
    assert WithoutTemps(ApplyRaise(s).dir) == WithoutTemps(s.dir);
  }

  lemma RestartKeeps(w: Workload, s: State, torn: set<FileName>)
    requires Inv(w, s)
    ensures Inv(w, Apply(w, s, Restart(torn)))
  {
    CrashKeepsStore(w, s.dir, torn);
    NewGenerationOk(w, AfterCrash(s.dir, torn));
  }

  lemma AnnounceKeeps(w: Workload, s: State, random: string)
    requires Inv(w, s) && Enabled(w, s, Save(random)) && s.ranks[0].phase.io.Announce?
    ensures Inv(w, Apply(w, s, Save(random)))
  {
    var t, rank := ApplySave(s, random), s.ranks[0];
    var log := s.logs[0] + [CheckpointLine(rank.step)];
    assert Lockstep(w, t) by { SaveKeepsLockstep(w, s, random); }
    assert t.ranks[0] == rank.(phase := Waiting(Commit), entered := rank.entered + 1) && t.logs[0] == log;
    assert PublishOk(w, s.origin, s.dir, t.ranks[0]) && ProgressLogOk(w, s.origin, s.dir, t.ranks[0], log) by {
      AnnouncedIsPublished(w, s.origin, s.dir, rank, s.logs[0]);
    }
    assert ResumeLogOk(s.origin, 0, t.ranks[0], log) by {
      Append(s.logs[0], CheckpointLine(rank.step), 0);
      assert RankOk(w, s.origin, 0, rank);
    }
    OneRankKeeps(w, s, t, 0);
  }

  /** When rank 0 announces a checkpoint, `latest.pt` holds it. */
  lemma AnnouncedIsPublished(w: Workload, origin: nat, dir: Directory, rank: Rank, log: Log)
    requires Valid(w) && origin % w.every == 0 && rank.phase.Saving? && rank.phase.io.Announce?
    requires RankOk(w, origin, 0, rank) && StoreOk(w, dir)
    requires PublishOk(w, origin, dir, rank) && ProgressLogOk(w, origin, dir, rank, log)
    ensures var after := rank.(phase := Waiting(Commit), entered := rank.entered + 1);
      PublishOk(w, origin, dir, after) &&
      ProgressLogOk(w, origin, dir, after, log + [CheckpointLine(rank.step)])
  {
    Append(log, CheckpointLine(rank.step), 0);
    assert SlotOf(w, origin, rank.entered) == Slot(Commit, rank.step);
  }

  /** The rename publishes the saved state under its final name and changes nothing else visible. */
  lemma ReplacePublishes(w: Workload, s: State, random: string)
    requires Inv(w, s) && Enabled(w, s, Save(random)) && s.ranks[0].phase.io.Replace?
    ensures !s.ranks[0].phase.io.target.Latest? ==> ResumeStep(s.dir) < s.ranks[0].step
    ensures SavedStep(w, s.ranks[0].step)
    ensures !s.ranks[0].phase.io.target.Temp?
    ensures WithoutTemps(ApplySave(s, random).dir) ==
      WithoutTemps(s.dir[s.ranks[0].phase.io.target := Synced(PayloadAt(w, s.ranks[0].step))])
  {
    var io := s.ranks[0].phase.io;
    var published := s.dir[io.target := Synced(PayloadAt(w, s.ranks[0].step))];
    assert ApplySave(s, random).dir == published - {Temp(io.target, io.random)};
    TempWritesAreInvisible(published, io.target, io.random, Torn);
  }

  lemma ReplaceKeepsStore(w: Workload, s: State, random: string)
    requires Inv(w, s) && Enabled(w, s, Save(random)) && s.ranks[0].phase.io.Replace?
    ensures StoreOk(w, ApplySave(s, random).dir)
    ensures Latest in s.dir ==> Latest in ApplySave(s, random).dir
    ensures s.ranks[0].phase.io.target.Latest? ==>
      Latest in ApplySave(s, random).dir && ResumeStep(ApplySave(s, random).dir) == s.ranks[0].step
    ensures !s.ranks[0].phase.io.target.Latest? ==>
      (Latest in ApplySave(s, random).dir <==> Latest in s.dir) &&
      (Latest in s.dir ==> ApplySave(s, random).dir[Latest] == s.dir[Latest]) &&
      ResumeStep(ApplySave(s, random).dir) in {ResumeStep(s.dir), s.ranks[0].step} &&
      (Latest in s.dir ==> ResumeStep(ApplySave(s, random).dir) == ResumeStep(s.dir))
  {
    ReplacePublishes(w, s, random);
    var io, k := s.ranks[0].phase.io, s.ranks[0].step;
    var published := s.dir[io.target := Synced(PayloadAt(w, k))];
    if io.target.Latest? {
      PublishLatest(w, s.dir, k);
    } else {
      assert io.target == StepFile(k);
      PublishStepFile(w, s.dir, k);
    }
    TempsKeepStore(w, published, ApplySave(s, random).dir);
  }

  lemma ReplaceKeeps(w: Workload, s: State, random: string)
    requires Inv(w, s) && Enabled(w, s, Save(random)) && s.ranks[0].phase.io.Replace?
    ensures Inv(w, Apply(w, s, Save(random)))
  {
    var t := Apply(w, s, Save(random));
    SaveKeepsLockstep(w, s, random);
    SaveMoves(w, s, random);
    ReplaceKeepsStore(w, s, random);
    LoggedBeforeLatest(w, s);
    ReplacedIsPublished(w, s.origin, s.dir, t.dir, s.ranks[0], t.ranks[0], s.logs[0]);
    SaveStepKeeps(w, s, t);
  }

  lemma ReplacedIsPublished(w: Workload, origin: nat, dir: Directory, dir': Directory, rank: Rank, after: Rank,
                            log: Log)
    requires w.every >= 1 && rank.phase.Saving? && rank.phase.io.Replace? && rank.left > 0
    requires after == rank.(phase := Saving(rank.phase.rngs, Cleanup(rank.phase.io.target, rank.phase.io.random)))
    requires PublishOk(w, origin, dir, rank) && ProgressLogOk(w, origin, dir, rank, log) && StoreOk(w, dir')
    requires LatestCheckpointStep(log).Some? ==> LatestCheckpointStep(log).value < rank.step
    requires rank.phase.io.target.Latest? ==> Latest in dir' && ResumeStep(dir') == rank.step
    requires !rank.phase.io.target.Latest? ==>
      (Latest in dir' <==> Latest in dir) && ResumeStep(dir') in {ResumeStep(dir), rank.step} &&
      (Latest in dir ==> dir'[Latest] == dir[Latest] && ResumeStep(dir') == ResumeStep(dir))
    ensures PublishOk(w, origin, dir', after) && ProgressLogOk(w, origin, dir', after, log)
  {
    if rank.phase.io.target.Latest? {
      LatestIsPublished(w, origin, dir, dir', rank, after, log);
    } else {
      StepFileIsPublished(w, origin, dir, dir', rank, after, log);
    }
  }

  lemma LatestIsPublished(w: Workload, origin: nat, dir: Directory, dir': Directory, rank: Rank, after: Rank,
                          log: Log)
    requires w.every >= 1 && rank.phase.Saving? && rank.phase.io.Replace? && rank.left > 0
    requires after == rank.(phase := Saving(rank.phase.rngs, Cleanup(rank.phase.io.target, rank.phase.io.random)))
    requires PublishOk(w, origin, dir, rank) && ProgressLogOk(w, origin, dir, rank, log) && StoreOk(w, dir')
    requires LatestCheckpointStep(log).Some? ==> LatestCheckpointStep(log).value < rank.step
    requires rank.phase.io.target.Latest? && Latest in dir' && ResumeStep(dir') == rank.step
    ensures PublishOk(w, origin, dir', after) && ProgressLogOk(w, origin, dir', after, log)
  {
  }

  lemma StepFileIsPublished(w: Workload, origin: nat, dir: Directory, dir': Directory, rank: Rank, after: Rank,
                            log: Log)
    requires w.every >= 1 && rank.phase.Saving? && rank.phase.io.Replace? && rank.left > 0
    requires after == rank.(phase := Saving(rank.phase.rngs, Cleanup(rank.phase.io.target, rank.phase.io.random)))
    requires PublishOk(w, origin, dir, rank) && ProgressLogOk(w, origin, dir, rank, log) && StoreOk(w, dir')
    requires LatestCheckpointStep(log).Some? ==> LatestCheckpointStep(log).value < rank.step
    requires !rank.phase.io.target.Latest? && (Latest in dir' <==> Latest in dir)
    requires ResumeStep(dir') in {ResumeStep(dir), rank.step}
    requires Latest in dir ==> dir'[Latest] == dir[Latest] && ResumeStep(dir') == ResumeStep(dir)
    ensures PublishOk(w, origin, dir', after) && ProgressLogOk(w, origin, dir', after, log)
  {
    assert PublishOk(w, origin, dir', after) by {
      assert SaveProgress(rank.phase.io) == 0 && SaveProgress(after.phase.io) == 1;
    }
  }

  /** What is logged was saved before the save in progress began. */
  lemma LoggedBeforeLatest(w: Workload, s: State)
    requires Inv(w, s) && s.ranks[0].phase.Saving?
    ensures LatestCheckpointStep(s.logs[0]).Some? ==> LatestCheckpointStep(s.logs[0]).value < s.ranks[0].step
  {
  }

  /** The calls other than the rename and the announcement touch only the temporary file. */
  lemma QuietSave(w: Workload, s: State, random: string)
    requires Inv(w, s) && Enabled(w, s, Save(random))
    requires !s.ranks[0].phase.io.Announce? && !s.ranks[0].phase.io.Replace?
    ensures WithoutTemps(ApplySave(s, random).dir) == WithoutTemps(s.dir)
    ensures ApplySave(s, random).ranks[0].phase.Saving?
    ensures SaveProgress(ApplySave(s, random).ranks[0].phase.io) == SaveProgress(s.ranks[0].phase.io)
    ensures IoOk(ApplySave(s, random).dir, s.ranks[0].step, PayloadAt(w, s.ranks[0].step),
                 ApplySave(s, random).ranks[0].phase.io)
  {
    var rank := s.ranks[0];
    var io, payload := rank.phase.io, PayloadOf(rank, rank.phase.rngs);
    assert payload == PayloadAt(w, rank.step);
    match io
    case Create(target) => TempWritesAreInvisible(s.dir, target, random, Torn);
    case Write(target, name) => TempWritesAreInvisible(s.dir, target, name, Unsynced(payload));
    case Sync(target, name) => TempWritesAreInvisible(s.dir, target, name, Synced(payload));
    case Cleanup(target, name) => TempWritesAreInvisible(s.dir, target, name, Torn);
  }

  lemma SaveKeeps(w: Workload, s: State, random: string)
    requires Inv(w, s) && Enabled(w, s, Save(random))
    ensures Inv(w, Apply(w, s, Save(random)))
  {
    if s.ranks[0].phase.io.Announce? {
      AnnounceKeeps(w, s, random);
    } else if s.ranks[0].phase.io.Replace? {
      ReplaceKeeps(w, s, random);
    } else {
      SaveKeepsLockstep(w, s, random);
      SaveMoves(w, s, random);
      QuietSave(w, s, random);
      QuietSaveKeeps(w, s, Apply(w, s, Save(random)));
    }
  }

  lemma ActionKeeps(w: Workload, s: State, a: Action)
    requires Inv(w, s) && Enabled(w, s, a)
    ensures Inv(w, Apply(w, s, a))
  {
    match a
    case Locate(r) => LocateKeeps(w, s, r);
    case Restore(r) => RestoreKeeps(w, s, r);
    case Leave(r) => LeaveKeeps(w, s, r);
    case Compute(r) => ComputeKeeps(w, s, r);
    case Finish(r) => FinishKeeps(w, s, r);
    case Save(random) => SaveKeeps(w, s, random);
    case Raise => RaiseKeeps(w, s);
    case Die(r) => DieKeeps(w, s, r);
    case Restart(torn) => RestartKeeps(w, s, torn);
  }

  /** The invariant holds along every run. */
  lemma {:induction false} RunKeeps(w: Workload, s: State, actions: seq<Action>)
    requires Inv(w, s) && CanRun(w, s, actions)
    ensures Inv(w, Run(w, s, actions))
    decreases |actions|
  {
    if actions != [] {
      ActionKeeps(w, s, actions[0]);
      RunKeeps(w, Apply(w, s, actions[0]), actions[1..]);
    }
  }
}
