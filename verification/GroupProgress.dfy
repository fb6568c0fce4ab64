/** What a group in which nobody dies does: it never deadlocks, and it finishes. */
module GroupProgress {
  import opened Workload
  import opened TrainingMachine
  import opened TrainingInvariant
  import opened TrainingPreservation
  import opened TrainingTheorems
  import opened RecoveryFence

  predicate AllAlive(ranks: seq<Rank>) {
    forall r :: 0 <= r < |ranks| ==> !ranks[r].phase.Dead?
  }

  lemma ContributionFits(w: Workload, origin: nat, call: nat, q: nat)
    requires w.every >= 1 && q < w.world
    ensures Fits(Contribution(w, SlotOf(w, origin, call), q), SlotOf(w, origin, call).kind)
  {
    SlotStepIsPositive(w, origin, call);
  }

  /** A rank may leave the collective it waits in as soon as all others have entered it. */
  lemma WaitingMoves(w: Workload, s: State, r: nat)
    requires Lockstep(w, s) && r < w.world && s.ranks[r].phase.Waiting?
    requires forall q :: 0 <= q < w.world ==> s.ranks[r].left < s.ranks[q].entered
    ensures Enabled(w, s, Leave(r))
  {
    var call := s.ranks[r].left;
    assert SlotOf(w, s.origin, call).kind == s.ranks[r].phase.kind by { assert RankOk(w, s.origin, r, s.ranks[r]); }
    forall q: nat | q < w.world
      ensures (call, q) in s.net && Fits(s.net[(call, q)], s.ranks[r].phase.kind)
    {
      assert NetOk(w, s.origin, s.net, s.ranks);
      ContributionFits(w, s.origin, call, q);
    }
  }

  lemma {:induction false} Slowest(ranks: seq<Rank>) returns (q: nat)
    requires ranks != []
    ensures q < |ranks| && forall r :: 0 <= r < |ranks| ==> ranks[q].entered <= ranks[r].entered
  {
    var last := |ranks| - 1;
    if last == 0 {
      q := 0;
    } else {
      q := Slowest(ranks[..last]);
      forall r | 0 <= r < last
        ensures ranks[q].entered <= ranks[r].entered
      {
        assert ranks[..last][r] == ranks[r] && ranks[..last][q] == ranks[q];
      }
      if ranks[last].entered < ranks[q].entered {
        q := last;
      }
    }
  }

  /** A waiting rank is behind one that has finished. */
  lemma WaitingIsBehindDone(w: Workload, origin: nat, q: nat, done: Rank, r: nat, rank: Rank)
    requires w.every >= 1 && q < w.world && r < w.world
    requires RankOk(w, origin, q, done) && RankOk(w, origin, r, rank) && done.phase.Done? && rank.phase.Waiting?
    ensures rank.left < done.left
  {
    if rank.left >= done.left {
      SlotStepsGrow(w, origin, done.left, rank.left);
      assert false;
    }
  }

  /** The group never deadlocks: while nobody is dead and somebody has not finished, some rank can take an
      ordinary action. */
  lemma NeverStuck(w: Workload, s: State, r: nat) returns (a: Action)
    requires Inv(w, s) && AllAlive(s.ranks) && r < w.world && !s.ranks[r].phase.Done?
    ensures Enabled(w, s, a) && Spares(a, w.world)
  {
    var q := Slowest(s.ranks);
    assert RankOk(w, s.origin, q, s.ranks[q]) && RankOk(w, s.origin, r, s.ranks[r]);
    if s.ranks[q].phase.Waiting? {
      WaitingMoves(w, s, q);
      a := Leave(q);
    } else if !s.ranks[q].phase.Done? {
      a := RankMoves(w, s, q, w.world);
    } else if s.ranks[r].phase.Waiting? {
      WaitingIsBehindDone(w, s.origin, q, s.ranks[q], r, s.ranks[r]);
      WaitingMoves(w, s, r);
      a := Leave(r);
    } else {
      a := RankMoves(w, s, r, w.world);
    }
  }

  /** One rank moves, and not too far. */
  ghost predicate Ticked(ranks: seq<Rank>, next: seq<Rank>, r: nat) {
    r < |ranks| == |next| && next == ranks[r := next[r]] && !ranks[r].phase.Dead? && !next[r].phase.Dead? &&
    16 * ranks[r].left + Ticks(ranks[r].phase) < 16 * next[r].left + Ticks(next[r].phase)
  }

  lemma StepTicks(w: Workload, s: State, a: Action, r: nat)
    requires Inv(w, s) && Enabled(w, s, a) && Spares(a, w.world) && r == (if a.Save? then 0 else a.rank)
    ensures Ticked(s.ranks, Apply(w, s, a).ranks, r)
  {
    RankTicks(w, s, a, r);
  }

  lemma TickUsesSlack(ranks: seq<Rank>, next: seq<Rank>, r: nat, paused: nat, cap: nat)
    requires Ticked(ranks, next, r) && r != paused && next[r].left <= cap
    ensures TotalSlack(next, paused, cap) < TotalSlack(ranks, paused, cap)
  {
    SlackUsed(ranks[r], next[r], cap);
    SlackOfChange(ranks, r, next[r], paused, cap);
  }

  lemma {:induction false} CallOfStep(w: Workload, origin: nat, k: nat) returns (call: nat)
    requires w.every >= 1 && k > origin
    ensures SlotOf(w, origin, call) == Slot(Gradients, k) && call <= 4 * (k - origin) - 3
  {
    if k == origin + 1 {
      call := 1;
      assert SlotOf(w, origin, 1) == Following(w, SlotOf(w, origin, 0));
    } else {
      var c := CallOfStep(w, origin, k - 1);
      assert SlotOf(w, origin, c + 1) == Slot(Metrics, k - 1);
      assert SlotOf(w, origin, c + 2) == Following(w, Slot(Metrics, k - 1));
      if (k - 1) % w.every == 0 {
        assert SlotOf(w, origin, c + 3) == Slot(Commit, k - 1);
        assert SlotOf(w, origin, c + 4) == Slot(Gradients, k);
        call := c + 4;
      } else {
        call := c + 2;
      }
    }
  }

  /** Only the call before the first one of a step belongs to the step before. */
  lemma BeforeGradients(w: Workload, origin: nat, call: nat)
    requires w.every >= 1 && SlotOf(w, origin, call).kind.Gradients?
    ensures call >= 1 && SlotOf(w, origin, call - 1).step + 1 == SlotOf(w, origin, call).step
  {
  }

  /** Nobody enters a step beyond the last one. */
  lemma LeftIsLimited(w: Workload, origin: nat, r: nat, rank: Rank, limit: nat)
    requires w.every >= 1 && r < w.world && RankOk(w, origin, r, rank) && !rank.phase.Dead?
    requires SlotOf(w, origin, limit) == Slot(Gradients, w.maxSteps + 1)
    ensures rank.left <= limit
  {
    if rank.left > limit {
      SlotStepsGrow(w, origin, limit, rank.left - 1);
      SlotStepsGrow(w, origin, limit, rank.left);
      if rank.phase.Running? || rank.phase.Done? {
        BeforeGradients(w, origin, rank.left);
      }
      assert false;
    }
  }

  lemma StepOfGroup(w: Workload, s: State, a: Action, t: State)
    requires Inv(w, s) && AllAlive(s.ranks) && Enabled(w, s, a) && Spares(a, w.world) && t == Apply(w, s, a)
    ensures Inv(w, t) && AllAlive(t.ranks) && t.origin == s.origin
  {
    var r := if a.Save? then 0 else a.rank;
    assert Inv(w, t) by { ActionKeeps(w, s, a); }
    OriginKept(w, s, a);
    assert Ticked(s.ranks, t.ranks, r) by { StepTicks(w, s, a, r); }
  }

  lemma StepUsesSlack(w: Workload, s: State, a: Action, limit: nat, t: State)
    requires Inv(w, s) && Enabled(w, s, a) && Spares(a, w.world) && t == Apply(w, s, a)
    requires Lockstep(w, t) && SlotOf(w, t.origin, limit) == Slot(Gradients, w.maxSteps + 1)
    ensures TotalSlack(t.ranks, w.world, limit) < TotalSlack(s.ranks, w.world, limit)
  {
    var r := if a.Save? then 0 else a.rank;
    assert Ticked(s.ranks, t.ranks, r) by { StepTicks(w, s, a, r); }
    assert RankOk(w, t.origin, r, t.ranks[r]);
    LeftIsLimited(w, t.origin, r, t.ranks[r], limit);
    TickUsesSlack(s.ranks, t.ranks, r, w.world, limit);
  }

  lemma {:induction false} RunOfGroup(w: Workload, s: State, actions: seq<Action>, limit: nat)
    requires Inv(w, s) && AllAlive(s.ranks) && CanRun(w, s, actions) && AllSpare(actions, w.world)
    requires SlotOf(w, s.origin, limit) == Slot(Gradients, w.maxSteps + 1)
    ensures |actions| <= TotalSlack(s.ranks, w.world, limit)
    ensures Inv(w, Run(w, s, actions)) && AllAlive(Run(w, s, actions).ranks)
    decreases |actions|
  {
    if actions != [] {
      var t := Apply(w, s, actions[0]);
      assert actions[0] in actions;
      StepOfGroup(w, s, actions[0], t);
      StepUsesSlack(w, s, actions[0], limit, t);
      RunOfGroup(w, t, actions[1..], limit);
    }
  }

  lemma {:induction false} SlackIsLimited(ranks: seq<Rank>, paused: nat, limit: nat)
    ensures TotalSlack(ranks, paused, limit) <= |ranks| * (16 * limit + 14)
  {
    if ranks != [] {
      SlackIsLimited(ranks[..|ranks| - 1], paused, limit);
      assert |ranks| * (16 * limit + 14) == (|ranks| - 1) * (16 * limit + 14) + (16 * limit + 14);
    }
  }

  /** Where a live group cannot go on, everybody has finished with the state of the last step. */
  lemma HaltedGroupIsDone(w: Workload, s: State)
    requires Inv(w, s) && AllAlive(s.ranks) && Halted(w, s, w.world)
    ensures forall r :: 0 <= r < w.world ==> s.ranks[r].phase.Done? && Holds(w, w.maxSteps, r, s.ranks[r])
  {
    forall r | 0 <= r < w.world
      ensures s.ranks[r].phase.Done? && Holds(w, w.maxSteps, r, s.ranks[r])
    {
      if !s.ranks[r].phase.Done? {
        var a := NeverStuck(w, s, r);
        assert false;
      }
      assert RankOk(w, s.origin, r, s.ranks[r]);
    }
  }

  /** A call nobody gets past, and the slack up to it. */
  lemma LiveRunSlack(w: Workload, before: seq<Action>, s: State, actions: seq<Action>) returns (limit: nat)
    requires Reached(w, before, s) && AllAlive(s.ranks) && CanRun(w, s, actions) && AllSpare(actions, w.world)
    ensures |s.ranks| == w.world && s.origin <= w.maxSteps && limit <= 4 * (w.maxSteps - s.origin) + 1
    ensures |actions| <= TotalSlack(s.ranks, w.world, limit)
  {
    assert Inv(w, s) by { ReachedIsOk(w, before, s); }
    limit := CallOfStep(w, s.origin, w.maxSteps + 1);
    RunOfGroup(w, s, actions, limit);
  }

  /** As long as nobody dies the group comes to an end, however its ranks are scheduled. */
  lemma LiveRunIsBounded(w: Workload, before: seq<Action>, s: State, actions: seq<Action>)
    requires Reached(w, before, s) && AllAlive(s.ranks) && CanRun(w, s, actions) && AllSpare(actions, w.world)
    ensures s.origin <= w.maxSteps && |actions| <= w.world * (64 * (w.maxSteps - s.origin) + 30)
  {
    var limit := LiveRunSlack(w, before, s, actions);
    SlackOfSteps(s.ranks, w.world, limit, w.maxSteps - s.origin, |actions|);
  }

  /** And where no action is left, every rank is done and holds the state of the uninterrupted run after
      the last step. */
  lemma LiveGroupFinishes(w: Workload, before: seq<Action>, s: State, actions: seq<Action>, d: State)
    requires Reached(w, before, s) && AllAlive(s.ranks)
    requires CanRun(w, s, actions) && AllSpare(actions, w.world) && d == Run(w, s, actions)
    requires Halted(w, d, w.world)
    ensures forall r :: 0 <= r < w.world ==> d.ranks[r].phase.Done? && Holds(w, w.maxSteps, r, d.ranks[r])
  {
    assert Inv(w, d) && AllAlive(d.ranks) by {
      ReachedIsOk(w, before, s);
      var limit := CallOfStep(w, s.origin, w.maxSteps + 1);
      RunOfGroup(w, s, actions, limit);
    }
    HaltedGroupIsDone(w, d);
  }

  lemma SlackOfSteps(ranks: seq<Rank>, world: nat, limit: nat, steps: nat, n: nat)
    requires |ranks| == world && limit <= 4 * steps + 1 && n <= TotalSlack(ranks, world, limit)
    ensures n <= world * (64 * steps + 30)
  {
    SlackIsLimited(ranks, world, limit);
    LimitScales(world, 16 * limit + 14, 64 * steps + 30);
  }

  lemma LimitScales(n: nat, a: nat, b: nat)
    requires a <= b
    ensures n * a <= n * b
  {
  }
}
