/** A run in which the log lags behind the published checkpoint. */
module FenceGap {
  import opened Options
  import opened Decimal
  import opened Workload
  import opened CheckpointStore
  import opened TrainingLog
  import opened TrainingMachine
  import opened TrainingInvariant
  import opened TrainingSteps
  import opened TrainingPreservation
  import opened TrainingTheorems
  import opened RecoveryFence
  import opened GroupProgress

  /** The call with which the group gathers for the save of step `k`. */
  ghost predicate GathersAt(w: Workload, call: nat, k: nat)
    requires w.every >= 1
  {
    SlotOf(w, 0, call) == Slot(Gather, k)
  }

  lemma GatherOfStep(w: Workload, k: nat) returns (call: nat)
    requires w.every >= 1 && k == 2 * w.every
    ensures GathersAt(w, call, k)
  {
    var c := CallOfStep(w, 0, k);
    assert k % w.every == 0 by { QuotientIs(k, w.every, 2, 0); }
    assert SlotOf(w, 0, c + 1) == Slot(Metrics, k);
    assert SlotOf(w, 0, c + 2) == Following(w, Slot(Metrics, k));
    call := c + 2;
  }

  /** Rank 0 has not got past the save that starts when it leaves call `call`. */
  predicate NotPast(rank: Rank, call: nat) {
    !rank.phase.Dead? && (rank.left <= call || (rank.left == call + 1 && rank.phase.Saving?))
  }

  /** Rank 0 has published `latest.pt` in that save and not announced it. */
  predicate InGap(rank: Rank, call: nat) {
    rank.left == call + 1 && rank.phase.Saving? && SaveProgress(rank.phase.io) == 2
  }

  /** Before the gap rank 0 is not finished, and has entered no collective beyond the save. */
  lemma NotPastIsBusy(w: Workload, rank: Rank, call: nat, k: nat)
    requires w.every >= 1 && 0 < w.world && k <= w.maxSteps && GathersAt(w, call, k)
    requires RankOk(w, 0, 0, rank) && NotPast(rank, call)
    ensures !rank.phase.Done? && rank.entered <= call + 1
  {
    if rank.phase.Done? {
      SlotStepsGrow(w, 0, rank.left, call);
      assert false;
    }
  }

  lemma LeaveKeepsNotPast(w: Workload, rank: Rank, after: Rank, call: nat, k: nat)
    requires w.every >= 1 && 0 < w.world && GathersAt(w, call, k) && RankOk(w, 0, 0, rank)
    requires rank.phase.Waiting? && NotPast(rank, call) && Left(w, 0, rank, after) && !after.phase.Dead?
    ensures NotPast(after, call)
  {
  }

  /** Every ordinary action short of the gap leaves rank 0 short of it, or in it. */
  lemma ActionKeepsNotPast(w: Workload, s: State, a: Action, call: nat, k: nat)
    requires Inv(w, s) && s.origin == 0 && Enabled(w, s, a) && Spares(a, w.world) && GathersAt(w, call, k)
    requires NotPast(s.ranks[0], call) && !InGap(s.ranks[0], call)
    requires a.Save? || a.rank == 0
    ensures NotPast(Apply(w, s, a).ranks[0], call)
  {
    var rank := s.ranks[0];
    assert RankOk(w, 0, 0, rank);
    match a
    case Leave(r) =>
      LeaveTouches(w, s, 0);
      LeaveKeepsNotPast(w, rank, ApplyLeave(w, s, 0).ranks[0], call, k);
    case Compute(r) => ComputeTouches(w, s, 0);
    case Restore(r) => RestoreKeepsLockstep(w, s, 0);
    case Save(random) =>
      SaveTicks(w, s, random);
      if rank.left == call + 1 {
        SaveMoves(w, s, random);
      }
    case _ =>
  }

  /** Short of the gap, and nobody dead. */
  ghost predicate OnTheWay(w: Workload, s: State, call: nat) {
    Inv(w, s) && s.origin == 0 && AllAlive(s.ranks) && NotPast(s.ranks[0], call)
  }

  lemma StepStaysOnTheWay(w: Workload, s: State, a: Action, call: nat, k: nat, r: nat)
    requires OnTheWay(w, s, call) && GathersAt(w, call, k) && !InGap(s.ranks[0], call)
    requires Enabled(w, s, a) && Spares(a, w.world) && r == (if a.Save? then 0 else a.rank)
    ensures OnTheWay(w, Apply(w, s, a), call)
  {
    var t := Apply(w, s, a);
    assert Inv(w, t) by { ActionKeeps(w, s, a); }
    OriginKept(w, s, a);
    assert t.ranks == s.ranks[r := t.ranks[r]] && !t.ranks[r].phase.Dead? by { RankTicks(w, s, a, r); }
    if r == 0 {
      ActionKeepsNotPast(w, s, a, call, k);
    }
  }

  lemma LeftIsBounded(w: Workload, s: State, call: nat, k: nat, r: nat)
    requires OnTheWay(w, s, call) && GathersAt(w, call, k) && k <= w.maxSteps && r < w.world
    ensures s.ranks[r].left <= call + 1
  {
    assert RankOk(w, 0, 0, s.ranks[0]) && s.ranks[r].left <= s.ranks[0].entered;
    NotPastIsBusy(w, s.ranks[0], call, k);
  }

  /** There is always a next action on the way to the gap. */
  lemma NextOnTheWay(w: Workload, s: State, call: nat, k: nat) returns (a: Action)
    requires OnTheWay(w, s, call) && GathersAt(w, call, k) && k <= w.maxSteps
    ensures Enabled(w, s, a) && Spares(a, w.world)
  {
    assert RankOk(w, 0, 0, s.ranks[0]);
    NotPastIsBusy(w, s.ranks[0], call, k);
    a := NeverStuck(w, s, 0);
  }

  lemma StepLowersSlack(w: Workload, s: State, a: Action, call: nat, k: nat, t: State)
    requires OnTheWay(w, s, call) && GathersAt(w, call, k) && k <= w.maxSteps
    requires Enabled(w, s, a) && Spares(a, w.world) && t == Apply(w, s, a) && OnTheWay(w, t, call)
    ensures TotalSlack(t.ranks, w.world, call + 1) < TotalSlack(s.ranks, w.world, call + 1)
  {
    var r := if a.Save? then 0 else a.rank;
    assert Ticked(s.ranks, t.ranks, r) by { StepTicks(w, s, a, r); }
    assert t.ranks[r].left <= call + 1 by { LeftIsBounded(w, t, call, k, r); }
    TickUsesSlack(s.ranks, t.ranks, r, w.world, call + 1);
  }

  lemma {:induction false} DriveToGap(w: Workload, s: State, call: nat, k: nat) returns (actions: seq<Action>)
    requires OnTheWay(w, s, call) && GathersAt(w, call, k) && k <= w.maxSteps
    ensures CanRun(w, s, actions)
    ensures OnTheWay(w, Run(w, s, actions), call) && InGap(Run(w, s, actions).ranks[0], call)
    decreases TotalSlack(s.ranks, w.world, call + 1)
  {
    if InGap(s.ranks[0], call) {
      actions := [];
    } else {
      var a := NextOnTheWay(w, s, call, k);
      StepStaysOnTheWay(w, s, a, call, k, if a.Save? then 0 else a.rank);
      StepLowersSlack(w, s, a, call, k, Apply(w, s, a));
      var rest := DriveToGap(w, Apply(w, s, a), call, k);
      actions := [a] + rest;
      assert actions[0] == a && actions[1..] == rest;
    }
  }

  /** What the log and the directory say in the gap. */
  lemma GapLags(w: Workload, s: State, call: nat)
    requires Inv(w, s) && s.origin == 0 && GathersAt(w, call, 2 * w.every) && InGap(s.ranks[0], call)
    ensures LatestCheckpointStep(s.logs[0]) == Some(w.every) && ResumeStep(s.dir) == 2 * w.every
  {
    var rank := s.ranks[0];
    assert RankOk(w, 0, 0, rank);
    assert RoundDown(2 * w.every - 1, w.every) == w.every by { QuotientIs(2 * w.every - 1, w.every, 1, w.every - 1); }
    assert Announced(w, 0, rank) == w.every;
  }

  /** The log can lag behind: whatever the job and the size of the group, a run that is long enough for two
      saves reaches a state in which the log announces the first and a new generation would resume the
      second. */
  lemma FenceCanLag(w: Workload) returns (actions: seq<Action>, s: State)
    requires Valid(w) && 2 * w.every <= w.maxSteps
    ensures Reached(w, actions, s) && !s.ranks[0].phase.Dead?
    ensures LatestCheckpointStep(s.logs[0]) == Some(w.every) && ResumeStep(s.dir) == 2 * w.every
  {
    var call := GatherOfStep(w, 2 * w.every);
    InitOk(w);
    assert OnTheWay(w, Init(w), call);
    actions := DriveToGap(w, Init(w), call, 2 * w.every);
    s := Run(w, Init(w), actions);
    GapLags(w, s, call);
  }
}
