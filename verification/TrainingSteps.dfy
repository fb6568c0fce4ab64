/** Every action of the training machine keeps the invariant. */
module TrainingSteps {
  import opened Options
  import opened Workload
  import opened CheckpointNames
  import opened CheckpointStore
  import opened TrainingLog
  import opened TrainingMachine
  import opened TrainingInvariant

  /** Changing one rank without entering a collective. */
  lemma MoveKeepsLockstep(w: Workload, s: State, r: nat, rank: Rank)
    requires Lockstep(w, s) && r < w.world
    requires rank.entered == s.ranks[r].entered
    requires RankOk(w, s.origin, r, rank)
    requires forall q :: 0 <= q < w.world ==> rank.left <= s.ranks[q].entered
    ensures Lockstep(w, WithRank(s, r, rank))
  {
  }

  /** Entering puts exactly the reference contribution into the net. */
  lemma EnterKeepsNet(w: Workload, s: State, r: nat, rank: Rank, kind: Kind, m: Message)
    requires w.every >= 1 && Sized(w, s) && r < w.world && NetOk(w, s.origin, s.net, s.ranks)
    requires rank.entered == s.ranks[r].entered
    requires m == Contribution(w, SlotOf(w, s.origin, rank.entered), r)
    ensures var t := Enter(s, r, rank, kind, m); NetOk(w, t.origin, t.net, t.ranks)
  {
    var t := Enter(s, r, rank, kind, m);
    forall c: nat, q: nat
      ensures (c, q) in t.net <==> q < w.world && c < t.ranks[q].entered
      ensures (c, q) in t.net ==> t.net[(c, q)] == Contribution(w, SlotOf(w, t.origin, c), q)
    {
      if q == r && c == rank.entered {
      } else {
        assert (c, q) in t.net <==> (c, q) in s.net;
      }
    }
  }

  /** One rank enters its next collective with the contribution the reference run makes. */
  lemma EnterKeepsLockstep(w: Workload, s: State, r: nat, rank: Rank, kind: Kind, m: Message)
    requires Lockstep(w, s) && r < w.world
    requires rank.entered == s.ranks[r].entered
    requires RankOk(w, s.origin, r, rank.(phase := Waiting(kind), entered := rank.entered + 1))
    requires m == Contribution(w, SlotOf(w, s.origin, rank.entered), r)
    requires forall q :: 0 <= q < w.world ==> rank.left <= s.ranks[q].entered
    ensures Lockstep(w, Enter(s, r, rank, kind, m))
  {
    var t, after := Enter(s, r, rank, kind, m), rank.(phase := Waiting(kind), entered := rank.entered + 1);
    assert t.ranks == s.ranks[r := after];
    assert NetOk(w, s.origin, t.net, t.ranks) by { EnterKeepsNet(w, s, r, rank, kind, m); }
    assert OrderOk(t.ranks) by { EnterKeepsOrder(s.ranks, r, after); }
  }

  lemma EnterKeepsOrder(ranks: seq<Rank>, r: nat, after: Rank)
    requires r < |ranks| && OrderOk(ranks) && after.entered == ranks[r].entered + 1
    requires forall q :: 0 <= q < |ranks| ==> after.left <= ranks[q].entered
    ensures OrderOk(ranks[r := after])
  {
  }

  /** All ranks have made their reference contribution to call `call`, which is for `x`. */
  ghost predicate AllContributed(w: Workload, net: map<(nat, nat), Message>, call: nat, x: Slot) {
    forall q: nat :: q < w.world ==> (call, q) in net && net[(call, q)] == Contribution(w, x, q)
  }

  /** Whoever may leave a collective finds that all ranks have entered it, and that they all
      contributed to the same thing. */
  lemma LeavingIsSafe(w: Workload, s: State, r: nat)
    requires Lockstep(w, s) && r < w.world && s.ranks[r].phase.Waiting?
    requires AllEntered(w, s.net, s.ranks[r].left, s.ranks[r].phase.kind)
    ensures forall q :: 0 <= q < w.world ==> s.ranks[r].left + 1 <= s.ranks[q].entered
    ensures AllContributed(w, s.net, s.ranks[r].left, Slot(s.ranks[r].phase.kind, s.ranks[r].step))
  {
    forall q: nat | q < w.world
      ensures s.ranks[r].left + 1 <= s.ranks[q].entered
    {
      assert (s.ranks[r].left, q) in s.net;
    }
  }

  /** What a rank holds after the gradient all-reduce and the optimizer step. */
  lemma ModelOfStep(w: Workload, s: State, r: nat)
    requires Lockstep(w, s) && r < w.world && s.ranks[r].phase == Waiting(Gradients)
    requires AllEntered(w, s.net, s.ranks[r].left, Gradients)
    ensures w.update(s.ranks[r].model, w.reduce(Grads(w, s.net, s.ranks[r].left))) ==
      Reference(w, s.ranks[r].step).model
  {
    LeavingIsSafe(w, s, r);
    var before := Reference(w, s.ranks[r].step - 1);
    assert Grads(w, s.net, s.ranks[r].left) ==
      seq(w.world, (q: nat) requires q < w.world => LocalStep(w, before, q).grad);
  }

  function Updated(w: Workload, rank: Rank): Rank {
    rank.(left := rank.left + 1, model := Reference(w, rank.step).model)
  }

  lemma LeavingGradientsUpdates(w: Workload, s: State, r: nat)
    requires Lockstep(w, s) && r < w.world && s.ranks[r].phase == Waiting(Gradients)
    requires AllEntered(w, s.net, s.ranks[r].left, Gradients)
    ensures ApplyLeave(w, s, r) ==
      Enter(s, r, Updated(w, s.ranks[r]), Metrics, TokenMessage(s.ranks[r].localTokens))
  {
    ModelOfStep(w, s, r);
  }

  /** A rank that applies the reference update of its step is ready for the metrics collective. */
  lemma UpdatedRankOk(w: Workload, origin: nat, r: nat, rank: Rank)
    requires w.every >= 1 && r < w.world && rank.phase == Waiting(Gradients) && RankOk(w, origin, r, rank)
    ensures RankOk(w, origin, r, Updated(w, rank).(phase := Waiting(Metrics), entered := rank.entered + 1))
    ensures TokenMessage(rank.localTokens) == Contribution(w, SlotOf(w, origin, rank.entered), r)
  {
    assert SlotOf(w, origin, rank.entered) == Following(w, SlotOf(w, origin, rank.left));
  }

  lemma LeaveGradientsKeeps(w: Workload, s: State, r: nat)
    requires Lockstep(w, s) && r < w.world && s.ranks[r].phase == Waiting(Gradients)
    requires AllEntered(w, s.net, s.ranks[r].left, Gradients)
    ensures Lockstep(w, ApplyLeave(w, s, r))
  {
    LeavingIsSafe(w, s, r);
    UpdatedRankOk(w, s.origin, r, s.ranks[r]);
    EnterKeepsLockstep(w, s, r, Updated(w, s.ranks[r]), Metrics, TokenMessage(s.ranks[r].localTokens));
    LeavingGradientsUpdates(w, s, r);
  }

  /** What a rank has counted after the metrics collective: adding up what the ranks have sent, one after
      the other, leads from the reference count of one step to that of the next. */
  lemma TokensOfStep(w: Workload, net: map<(nat, nat), Message>, call: nat, k: nat, totals: seq<nat>)
    requires AllEntered(w, net, call, Metrics) && k >= 1
    requires AllContributed(w, net, call, Slot(Metrics, k))
    requires |totals| == w.world + 1 && totals[0] == 0
    requires forall q: nat :: q < w.world ==> totals[q + 1] == totals[q] + net[(call, q)].tokens
    ensures Reference(w, k - 1).tokens + Sum(Tokens(w, net, call)) == Reference(w, k).tokens
    ensures Reference(w, k - 1).tokens + totals[w.world] == Reference(w, k).tokens
  {
    SummedTokens(w, net, call, k);
    RunningTotal(Tokens(w, net, call), totals);
  }

  lemma SummedTokens(w: Workload, net: map<(nat, nat), Message>, call: nat, k: nat)
    requires AllEntered(w, net, call, Metrics) && k >= 1
    requires AllContributed(w, net, call, Slot(Metrics, k))
    ensures Reference(w, k - 1).tokens + Sum(Tokens(w, net, call)) == Reference(w, k).tokens
  {
    var before := Reference(w, k - 1);
    assert Tokens(w, net, call) == seq(w.world, (q: nat) requires q < w.world => LocalStep(w, before, q).tokens);
  }

  function Metered(w: Workload, rank: Rank): Rank {
    rank.(left := rank.left + 1, tokens := Reference(w, rank.step).tokens)
  }

  /** The way on from the metrics collective. */
  function AfterMetrics(w: Workload, s: State, r: nat, rank: Rank): State
    requires r < |s.ranks| && w.every >= 1
  {
    if rank.step % w.every == 0 then Enter(s, r, Metered(w, rank), Gather, RngMessage(rank.rng))
    else WithRank(s, r, Metered(w, rank).(phase := Running))
  }

  function LoggedStep(s: State, r: nat, step: nat): State
    requires r < |s.logs|
  {
    if r == 0 then WithLine(s, r, StepLine(step)) else s
  }

  lemma LeavingMetricsCounts(w: Workload, s: State, r: nat)
    requires Valid(w) && Sized(w, s) && Enabled(w, s, Leave(r)) && s.ranks[r].phase == Waiting(Metrics)
    requires s.ranks[r].tokens + Sum(Tokens(w, s.net, s.ranks[r].left)) == Reference(w, s.ranks[r].step).tokens
    ensures ApplyLeave(w, s, r) == AfterMetrics(w, LoggedStep(s, r, s.ranks[r].step), r, s.ranks[r])
  {
  }

  /** A rank that has counted the step is ready to gather, or for the next step. */
  lemma MeteredRankOk(w: Workload, origin: nat, r: nat, rank: Rank)
    requires w.every >= 1 && r < w.world && rank.phase == Waiting(Metrics) && RankOk(w, origin, r, rank)
    ensures rank.step % w.every == 0 ==>
      RankOk(w, origin, r, Metered(w, rank).(phase := Waiting(Gather), entered := rank.entered + 1)) &&
      RngMessage(rank.rng) == Contribution(w, SlotOf(w, origin, rank.entered), r)
    ensures rank.step % w.every != 0 ==> RankOk(w, origin, r, Metered(w, rank).(phase := Running))
  {
    assert SlotOf(w, origin, rank.entered) == Following(w, SlotOf(w, origin, rank.left));
  }

  lemma MeteredKeepsLockstep(w: Workload, s: State, r: nat)
    requires Lockstep(w, s) && r < w.world && s.ranks[r].phase == Waiting(Metrics)
    requires forall q :: 0 <= q < w.world ==> s.ranks[r].left + 1 <= s.ranks[q].entered
    ensures Lockstep(w, AfterMetrics(w, s, r, s.ranks[r]))
  {
    var rank := s.ranks[r];
    MeteredRankOk(w, s.origin, r, rank);
    if rank.step % w.every == 0 {
      EnterKeepsLockstep(w, s, r, Metered(w, rank), Gather, RngMessage(rank.rng));
    } else {
      MoveKeepsLockstep(w, s, r, Metered(w, rank).(phase := Running));
    }
  }

  lemma LoggedStepKeepsLockstep(w: Workload, s: State, r: nat, step: nat)
    requires Lockstep(w, s) && r < w.world
    ensures Lockstep(w, LoggedStep(s, r, step)) && LoggedStep(s, r, step).ranks == s.ranks
  {
  }

  lemma MetricsRankTokens(w: Workload, origin: nat, r: nat, rank: Rank)
    requires w.every >= 1 && r < w.world && RankOk(w, origin, r, rank) && rank.phase == Waiting(Metrics)
    ensures rank.step >= 1 && rank.tokens == Reference(w, rank.step - 1).tokens
  {
  }

  lemma TokensAreCounted(w: Workload, s: State, r: nat)
    requires Lockstep(w, s) && r < w.world && s.ranks[r].phase == Waiting(Metrics)
    requires AllEntered(w, s.net, s.ranks[r].left, Metrics)
    ensures s.ranks[r].tokens + Sum(Tokens(w, s.net, s.ranks[r].left)) == Reference(w, s.ranks[r].step).tokens
  {
    var rank := s.ranks[r];
    MetricsRankTokens(w, s.origin, r, rank);
    assert AllContributed(w, s.net, rank.left, Slot(Metrics, rank.step)) by { LeavingIsSafe(w, s, r); }
    SummedTokens(w, s.net, rank.left, rank.step);
  }

  lemma LeaveMetricsKeeps(w: Workload, s: State, r: nat)
    requires Lockstep(w, s) && r < w.world && s.ranks[r].phase == Waiting(Metrics)
    requires AllEntered(w, s.net, s.ranks[r].left, Metrics)
    ensures Lockstep(w, ApplyLeave(w, s, r))
  {
    var rank := s.ranks[r];
    assert ApplyLeave(w, s, r) == AfterMetrics(w, LoggedStep(s, r, rank.step), r, rank) by {
      TokensAreCounted(w, s, r);
      LeavingMetricsCounts(w, s, r);
    }
    assert forall q :: 0 <= q < w.world ==> rank.left + 1 <= s.ranks[q].entered by { LeavingIsSafe(w, s, r); }
    LoggedStepKeepsLockstep(w, s, r, rank.step);
    MeteredKeepsLockstep(w, LoggedStep(s, r, rank.step), r);
  }

  /** A rank that has gathered the generators starts to save, or waits for the save. */
  lemma GatheredRankOk(w: Workload, origin: nat, r: nat, rank: Rank, io: Io)
    requires w.every >= 1 && r < w.world && rank.phase == Waiting(Gather) && RankOk(w, origin, r, rank)
    ensures var after := rank.(left := rank.left + 1);
      RankOk(w, origin, r, after.(phase := Waiting(Commit), entered := rank.entered + 1)) &&
      (r == 0 ==> RankOk(w, origin, r, after.(phase := Saving(Reference(w, rank.step).rngs, io)))) &&
      Contribution(w, SlotOf(w, origin, rank.entered), r) == Beat
  {
    assert SlotOf(w, origin, rank.entered) == Following(w, SlotOf(w, origin, rank.left));
  }

  function GatheredIo(rank: Rank): Io {
    Create(StepFile(rank.step))
  }

  lemma LeavingGatherSaves(w: Workload, s: State, r: nat)
    requires Valid(w) && Sized(w, s) && Enabled(w, s, Leave(r)) && s.ranks[r].phase == Waiting(Gather)
    requires Rngs(w, s.net, s.ranks[r].left) == Reference(w, s.ranks[r].step).rngs
    ensures var rank := s.ranks[r].(left := s.ranks[r].left + 1);
      ApplyLeave(w, s, r) ==
        if r == 0 then WithRank(s, r, rank.(phase := Saving(Reference(w, rank.step).rngs, GatheredIo(rank))))
        else Enter(s, r, rank, Commit, Beat)
  {
  }

  lemma LeaveGatherKeeps(w: Workload, s: State, r: nat)
    requires Lockstep(w, s) && r < w.world && s.ranks[r].phase == Waiting(Gather)
    requires AllEntered(w, s.net, s.ranks[r].left, Gather)
    ensures Lockstep(w, ApplyLeave(w, s, r))
  {
    LeavingIsSafe(w, s, r);
    var rank := s.ranks[r].(left := s.ranks[r].left + 1);
    GatheredRankOk(w, s.origin, r, s.ranks[r], GatheredIo(rank));
    if r == 0 {
      MoveKeepsLockstep(w, s, r, rank.(phase := Saving(Reference(w, rank.step).rngs, GatheredIo(rank))));
    } else {
      EnterKeepsLockstep(w, s, r, rank, Commit, Beat);
    }
    assert Rngs(w, s.net, s.ranks[r].left) == Reference(w, rank.step).rngs;
    LeavingGatherSaves(w, s, r);
  }

  lemma LeaveBarrierKeeps(w: Workload, s: State, r: nat)
    requires Lockstep(w, s) && r < w.world
    requires s.ranks[r].phase == Waiting(Start) || s.ranks[r].phase == Waiting(Commit)
    requires AllEntered(w, s.net, s.ranks[r].left, s.ranks[r].phase.kind)
    ensures Lockstep(w, ApplyLeave(w, s, r))
  {
    LeavingIsSafe(w, s, r);
    var rank := s.ranks[r].(left := s.ranks[r].left + 1);
    assert SlotOf(w, s.origin, rank.left) == Slot(Gradients, rank.step + 1);
    MoveKeepsLockstep(w, s, r, rank.(phase := Running));
  }

  lemma LeaveKeepsLockstep(w: Workload, s: State, r: nat)
    requires Lockstep(w, s) && Enabled(w, s, Leave(r))
    ensures Lockstep(w, ApplyLeave(w, s, r))
  {
    match s.ranks[r].phase.kind
    case Start => LeaveBarrierKeeps(w, s, r);
    case Gradients => LeaveGradientsKeeps(w, s, r);
    case Metrics => LeaveMetricsKeeps(w, s, r);
    case Gather => LeaveGatherKeeps(w, s, r);
    case Commit => LeaveBarrierKeeps(w, s, r);
  }

  /** A rank at the loop top computes exactly its share of the next reference step. */
  lemma ComputedRankOk(w: Workload, origin: nat, r: nat, rank: Rank)
    requires w.every >= 1 && r < w.world && AtLoopTop(w, origin, r, rank) && rank.step < w.maxSteps
    ensures RankOk(w, origin, r, Computed(w, r, rank).(phase := Waiting(Gradients), entered := rank.entered + 1))
    ensures GradMessage(LocalWork(w, r, rank).grad) ==
      Contribution(w, SlotOf(w, origin, rank.entered), r)
  {
    assert LocalWork(w, r, rank) == LocalAt(w, rank.step + 1, r);
  }

  lemma ComputedMayEnter(w: Workload, s: State, r: nat, after: Rank)
    requires Lockstep(w, s) && Enabled(w, s, Compute(r)) && after == Computed(w, r, s.ranks[r])
    ensures RankOk(w, s.origin, r, after.(phase := Waiting(Gradients), entered := after.entered + 1))
    ensures GradMessage(LocalWork(w, r, s.ranks[r]).grad) == Contribution(w, SlotOf(w, s.origin, after.entered), r)
    ensures after.entered == s.ranks[r].entered && forall q :: 0 <= q < w.world ==> after.left <= s.ranks[q].entered
  {
    assert AtLoopTop(w, s.origin, r, s.ranks[r]) by { assert RankOk(w, s.origin, r, s.ranks[r]); }
    ComputedRankOk(w, s.origin, r, s.ranks[r]);
    assert after.left == s.ranks[r].left && OrderOk(s.ranks);
  }

  lemma ComputeKeepsLockstep(w: Workload, s: State, r: nat)
    requires Lockstep(w, s) && Enabled(w, s, Compute(r))
    ensures Lockstep(w, ApplyCompute(w, s, r))
  {
    var after := Computed(w, r, s.ranks[r]);
    ComputedMayEnter(w, s, r, after);
    EnterKeepsLockstep(w, s, r, after, Gradients, GradMessage(LocalWork(w, r, s.ranks[r]).grad));
  }

  /** Reading the checkpoint leaves a rank with its share of the reference state at `origin`. */
  lemma RestoreKeepsLockstep(w: Workload, s: State, r: nat)
    requires Inv(w, s) && Enabled(w, s, Restore(r))
    ensures Lockstep(w, ApplyRestore(s, r))
    ensures ApplyRestore(s, r).ranks[r].phase == Waiting(Start)
    ensures ApplyRestore(s, r).ranks[r].step == s.origin
    ensures ApplyRestore(s, r).ranks[r].entered == 1 && ApplyRestore(s, r).ranks[r].left == 0
    ensures ApplyRestore(s, r).logs ==
      if s.origin > 0 then s.logs[r := s.logs[r] + [ResumeLine(s.origin, r)]] else s.logs
  {
    var rank := s.ranks[r];
    assert s.ranks[0].left <= rank.entered;
    assert ResumeStep(s.dir) == s.origin;
    match rank.phase.file
    case None =>
      EnterKeepsLockstep(w, s, r, rank, Start, Beat);
    case Some(file) =>
      var p := Readable(s.dir, file).value;
      var logged := WithLine(s, r, ResumeLine(p.step, r));
      EnterKeepsLockstep(w, logged, r, Loaded(rank, p, r), Start, Beat);
  }

  lemma SaveKeepsLockstep(w: Workload, s: State, random: string)
    requires Lockstep(w, s) && Enabled(w, s, Save(random))
    ensures Lockstep(w, ApplySave(s, random))
  {
    if s.ranks[0].phase.io.Announce? {
      AnnounceKeepsLockstep(w, s, random);
    } else {
      var rank := ApplySave(s, random).ranks[0];
      SaveMoves(w, s, random);
      MoveKeepsLockstep(w, s, 0, rank);
      assert ApplySave(s, random) == WithRank(s, 0, rank).(dir := ApplySave(s, random).dir);
    }
  }

  lemma AnnounceKeepsLockstep(w: Workload, s: State, random: string)
    requires Lockstep(w, s) && Enabled(w, s, Save(random)) && s.ranks[0].phase.io.Announce?
    ensures Lockstep(w, ApplySave(s, random))
  {
    var rank := s.ranks[0];
    assert SlotOf(w, s.origin, rank.entered) == Slot(Commit, rank.step);
    EnterKeepsLockstep(w, WithLine(s, 0, CheckpointLine(rank.step)), 0, rank, Commit, Beat);
  }

  lemma SaveMoves(w: Workload, s: State, random: string)
    requires Sized(w, s) && Enabled(w, s, Save(random)) && !s.ranks[0].phase.io.Announce?
    ensures ApplySave(s, random).ranks[0].phase.Saving?
    ensures ApplySave(s, random).ranks[0] ==
      s.ranks[0].(phase := Saving(s.ranks[0].phase.rngs, ApplySave(s, random).ranks[0].phase.io))
    ensures ApplySave(s, random).net == s.net && ApplySave(s, random).origin == s.origin
    ensures ApplySave(s, random).logs == s.logs
    ensures ApplySave(s, random).ranks == s.ranks[0 := ApplySave(s, random).ranks[0]]
  {
  }

  // The checkpoint directory.

  /** Publishing a numbered file newer than what is resumable: what is resumed stays the same, or
      becomes the new file. However the names sort, no third file can come up. */
  lemma PublishStepFile(w: Workload, dir: Directory, k: nat)
    requires Valid(w) && StoreOk(w, dir) && SavedStep(w, k)
    ensures StoreOk(w, dir[StepFile(k) := Synced(PayloadAt(w, k))])
    ensures ResumeStep(dir[StepFile(k) := Synced(PayloadAt(w, k))]) in {ResumeStep(dir), k}
    ensures Latest in dir ==> ResumeStep(dir[StepFile(k) := Synced(PayloadAt(w, k))]) == ResumeStep(dir)
  {
    var dir' := dir[StepFile(k) := Synced(PayloadAt(w, k))];
    assert StoreOk(w, dir');
    assert StepFiles(dir') == StepFiles(dir) + {k} by {
      assert StepFile(k) in dir';
      assert forall f :: f in dir ==> f in dir';
    }
    if Latest !in dir {
      if StepFiles(dir) == {} {
        assert PickLast(StepFiles(dir')) == k;
      } else {
        LastAfterAdding(StepFiles(dir), k);
        StepFileHolds(w, dir, PickLast(StepFiles(dir)));
      }
      StepFileHolds(w, dir', PickLast(StepFiles(dir')));
    }
  }

  lemma StepFileHolds(w: Workload, dir: Directory, m: nat)
    requires Valid(w) && StoreOk(w, dir) && m in StepFiles(dir)
    ensures Readable(dir, StepFile(m)) == Some(PayloadAt(w, m))
  {
    assert StepFile(m) in dir;
  }

  lemma PublishLatest(w: Workload, dir: Directory, k: nat)
    requires Valid(w) && StoreOk(w, dir) && SavedStep(w, k)
    ensures StoreOk(w, dir[Latest := Synced(PayloadAt(w, k))])
    ensures ResumeStep(dir[Latest := Synced(PayloadAt(w, k))]) == k
  {
  }

  /** Temporary files neither harm the store nor change what is resumed. */
  lemma TempsKeepStore(w: Workload, dir: Directory, dir': Directory)
    requires Valid(w) && StoreOk(w, dir) && WithoutTemps(dir) == WithoutTemps(dir')
    ensures StoreOk(w, dir') && ResumeStep(dir') == ResumeStep(dir)
    ensures LatestCheckpoint(dir') == LatestCheckpoint(dir)
    ensures Latest in dir <==> Latest in dir'
    ensures Latest in dir ==> dir'[Latest] == dir[Latest]
  {
    TempsAreInvisible(dir, dir');
    TempsAreInvisible(dir', dir);
  }
}
