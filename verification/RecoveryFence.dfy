/** Pausing one rank: the group halts soon, and the next generation resumes exactly the checkpoint the
    halted group had announced. */
module RecoveryFence {
  import opened Options
  import opened Workload
  import opened CheckpointNames
  import opened CheckpointStore
  import opened TrainingLog
  import opened TrainingMachine
  import opened TrainingInvariant
  import opened TrainingSteps
  import opened TrainingPreservation
  import opened TrainingTheorems
  import opened Quiescence

  /** An ordinary action of a rank other than the paused one; nobody dies and nothing is recreated. */
  predicate Spares(a: Action, paused: nat) {
    match a
    case Locate(r) => r != paused
    case Restore(r) => r != paused
    case Leave(r) => r != paused
    case Compute(r) => r != paused
    case Finish(r) => r != paused
    case Save(random) => 0 != paused
    case _ => false
  }

  predicate AllSpare(actions: seq<Action>, paused: nat) {
    forall a :: a in actions ==> Spares(a, paused)
  }

  /** The actions a rank has taken since it left its last collective, at least. */
  function Ticks(phase: Phase): nat {
    match phase
    case Located(file) => 1
    case Waiting(kind) => 13
    case Saving(rngs, io) =>
      (match io
       case Create(target) => if target.Latest? then 6 else 1
       case Write(target, random) => if target.Latest? then 7 else 2
       case Sync(target, random) => if target.Latest? then 8 else 3
       case Replace(target, random) => if target.Latest? then 9 else 4
       case Cleanup(target, random) => if target.Latest? then 10 else 5
       case Announce => 11)
    case Done => 14
    case _ => 0
  }

  /** How many more actions a rank can take while the paused rank stays at `entered` collectives. */
  function Slack(rank: Rank, entered: nat): nat {
    var bound, now := 16 * entered + 14, 16 * rank.left + Ticks(rank.phase);
    if rank.phase.Dead? || now > bound then 0 else bound - now
  }

  function TotalSlack(ranks: seq<Rank>, paused: nat, entered: nat): nat {
    if ranks == [] then 0
    else
      var last := |ranks| - 1;
      TotalSlack(ranks[..last], paused, entered) + if last == paused then 0 else Slack(ranks[last], entered)
  }

  lemma {:induction false} SlackOfChange(ranks: seq<Rank>, r: nat, rank: Rank, paused: nat, entered: nat)
    requires r < |ranks| && r != paused && Slack(rank, entered) < Slack(ranks[r], entered)
    ensures TotalSlack(ranks[r := rank], paused, entered) < TotalSlack(ranks, paused, entered)
  {
    var last := |ranks| - 1;
    if r == last {
      assert ranks[r := rank][..last] == ranks[..last];
    } else {
      assert ranks[r := rank][..last] == ranks[..last][r := rank];
      SlackOfChange(ranks[..last], r, rank, paused, entered);
    }
  }

  lemma {:induction false} SlackIsBounded(ranks: seq<Rank>, paused: nat, entered: nat)
    requires forall q :: 0 <= q < |ranks| ==> ranks[q].left + 2 >= entered
    ensures TotalSlack(ranks, paused, entered) <= 46 * if paused < |ranks| then |ranks| - 1 else |ranks|
  {
    if ranks != [] {
      var last := |ranks| - 1;
      SlackIsBounded(ranks[..last], paused, entered);
    }
  }

  lemma SlackUsed(rank: Rank, after: Rank, entered: nat)
    requires !rank.phase.Dead? && !after.phase.Dead? && after.left <= entered
    requires 16 * rank.left + Ticks(rank.phase) < 16 * after.left + Ticks(after.phase)
    ensures Slack(after, entered) < Slack(rank, entered)
  {
  }

  /** Each action takes a rank one tick further, and never past the paused rank's last collective. */
  lemma ActionUsesSlack(w: Workload, s: State, a: Action, paused: nat)
    requires Inv(w, s) && Enabled(w, s, a) && paused < w.world && Spares(a, paused)
    ensures Apply(w, s, a).ranks[paused] == s.ranks[paused]
    ensures TotalSlack(Apply(w, s, a).ranks, paused, s.ranks[paused].entered) <
            TotalSlack(s.ranks, paused, s.ranks[paused].entered)
  {
    var r := if a.Save? then 0 else a.rank;
    var t := Apply(w, s, a);
    assert t.ranks == s.ranks[r := t.ranks[r]] && !s.ranks[r].phase.Dead? && !t.ranks[r].phase.Dead? &&
           16 * s.ranks[r].left + Ticks(s.ranks[r].phase) < 16 * t.ranks[r].left + Ticks(t.ranks[r].phase) by {
      RankTicks(w, s, a, r);
    }
    assert t.ranks[r].left <= s.ranks[paused].entered by {
      ActionKeeps(w, s, a);
      assert OrderOk(t.ranks) && t.ranks[paused] == s.ranks[paused];
    }
    SlackUsed(s.ranks[r], t.ranks[r], s.ranks[paused].entered);
    SlackOfChange(s.ranks, r, t.ranks[r], paused, s.ranks[paused].entered);
  }

  lemma RankTicks(w: Workload, s: State, a: Action, r: nat)
    requires Inv(w, s) && Enabled(w, s, a) && r < w.world
    requires (a.Save? && r == 0) || ((a.Locate? || a.Restore? || a.Leave? || a.Compute? || a.Finish?) && r == a.rank)
    ensures Apply(w, s, a).ranks == s.ranks[r := Apply(w, s, a).ranks[r]]
    ensures !s.ranks[r].phase.Dead? && !Apply(w, s, a).ranks[r].phase.Dead?
    ensures 16 * s.ranks[r].left + Ticks(s.ranks[r].phase) <
            16 * Apply(w, s, a).ranks[r].left + Ticks(Apply(w, s, a).ranks[r].phase)
  {
    match a
    case Leave(q) => LeaveTicks(w, s, q);
    case Compute(q) => ComputeTouches(w, s, q);
    case Restore(q) => RestoreKeepsLockstep(w, s, q);
    case Save(random) => SaveTicks(w, s, random);
    case _ =>
  }

  lemma LeaveTicks(w: Workload, s: State, r: nat)
    requires Valid(w) && Sized(w, s) && Enabled(w, s, Leave(r))
    ensures ApplyLeave(w, s, r).ranks == s.ranks[r := ApplyLeave(w, s, r).ranks[r]]
    ensures !ApplyLeave(w, s, r).ranks[r].phase.Dead? && ApplyLeave(w, s, r).ranks[r].left == s.ranks[r].left + 1
  {
    LeaveTouches(w, s, r);
  }

  lemma SaveTicks(w: Workload, s: State, random: string)
    requires Valid(w) && Sized(w, s) && Enabled(w, s, Save(random))
    ensures ApplySave(s, random).ranks == s.ranks[0 := ApplySave(s, random).ranks[0]]
    ensures !ApplySave(s, random).ranks[0].phase.Dead? && ApplySave(s, random).ranks[0].left == s.ranks[0].left
    ensures Ticks(s.ranks[0].phase) < Ticks(ApplySave(s, random).ranks[0].phase)
  {
    if !s.ranks[0].phase.io.Announce? {
      SaveMoves(w, s, random);
    }
  }

  /** Once one rank stops, the rest of the group can take at most 46 actions per rank: it halts. */
  lemma PausedRankHaltsGroup(w: Workload, s: State, actions: seq<Action>, paused: nat)
    requires Inv(w, s) && paused < w.world && CanRun(w, s, actions) && AllSpare(actions, paused)
    ensures |actions| <= 46 * (w.world - 1)
  {
    ActionsFitSlack(w, s, actions, paused);
    var entered := s.ranks[paused].entered;
    forall q | 0 <= q < |s.ranks|
      ensures s.ranks[q].left + 2 >= entered
    {
      assert s.ranks[paused].left <= s.ranks[q].entered;
      EnteredLeft(w, s, q);
      EnteredLeft(w, s, paused);
    }
    SlackIsBounded(s.ranks, paused, entered);
  }

  lemma EnteredLeft(w: Workload, s: State, q: nat)
    requires Inv(w, s) && q < w.world
    ensures s.ranks[q].left <= s.ranks[q].entered <= s.ranks[q].left + 1
  {
    assert RankOk(w, s.origin, q, s.ranks[q]);
  }

  lemma {:induction false} ActionsFitSlack(w: Workload, s: State, actions: seq<Action>, paused: nat)
    requires Inv(w, s) && paused < w.world && CanRun(w, s, actions) && AllSpare(actions, paused)
    ensures |actions| <= TotalSlack(s.ranks, paused, s.ranks[paused].entered)
    ensures Run(w, s, actions).ranks[paused] == s.ranks[paused]
    ensures forall r :: 0 <= r < w.world ==> Run(w, s, actions).ranks[r].left <= s.ranks[paused].entered
    decreases |actions|
  {
    if actions != [] {
      ActionUsesSlack(w, s, actions[0], paused);
      ActionKeeps(w, s, actions[0]);
      assert actions[0] in actions;
      ActionsFitSlack(w, Apply(w, s, actions[0]), actions[1..], paused);
    }
  }

  /** Nothing can happen any more unless the paused rank moves, a rank dies or the group is recreated. */
  ghost predicate Halted(w: Workload, s: State, paused: nat)
    requires |s.ranks| == w.world
  {
    forall a :: Spares(a, paused) ==> !Enabled(w, s, a)
  }

  lemma {:induction false} FreshName(names: set<FileName>) returns (random: string)
    ensures forall f :: f in names && f.Temp? ==> |f.random| < |random|
  {
    if names == {} {
      random := "";
    } else {
      var f :| f in names;
      var shorter := FreshName(names - {f});
      random := shorter + (if f.Temp? then f.random else "") + "x";
    }
  }

  /** What a live rank that is neither waiting nor finished does next. */
  lemma RankMoves(w: Workload, s: State, r: nat, paused: nat) returns (a: Action)
    requires Inv(w, s) && r < w.world && paused != r
    requires !s.ranks[r].phase.Dead? && !s.ranks[r].phase.Waiting? && !s.ranks[r].phase.Done?
    ensures Enabled(w, s, a) && Spares(a, paused)
  {
    match s.ranks[r].phase
    case Booting => a := Locate(r);
    case Located(file) => a := Restore(r);
    case Running => a := if s.ranks[r].step < w.maxSteps then Compute(r) else Finish(r);
    case Saving(rngs, io) =>
      assert r == 0 by { assert RankOk(w, s.origin, r, s.ranks[r]); }
      var random := FreshName(s.dir.Keys);
      a := Save(random);
  }

  /** In a halted group rank 0, if it is alive and not the paused one, waits in a collective or has
      finished. */
  lemma HaltedMeansBlocked(w: Workload, s: State, paused: nat)
    requires Inv(w, s) && paused != 0 && Halted(w, s, paused) && !s.ranks[0].phase.Dead?
    ensures s.ranks[0].phase.Waiting? || s.ranks[0].phase.Done?
  {
    if !s.ranks[0].phase.Waiting? && !s.ranks[0].phase.Done? {
      var a := RankMoves(w, s, 0, paused);
      assert false;
    }
  }

  /** The logged checkpoint never exceeds `latest.pt`, and for a live rank 0 it is what a new
      generation would resume exactly unless the save in progress has published `latest.pt` but not
      yet announced it. */
  lemma FenceExactly(w: Workload, actions: seq<Action>, s: State, c: nat)
    requires Reached(w, actions, s) && LatestCheckpointStep(s.logs[0]) == Some(c)
    ensures c <= LatestStep(s.dir) <= ResumeStep(s.dir)
    ensures !s.ranks[0].phase.Dead? ==>
      (ResumeStep(s.dir) == c <==> !(s.ranks[0].phase.Saving? && SaveProgress(s.ranks[0].phase.io) == 2))
  {
    ReachedIsOk(w, actions, s);
    var rank := s.ranks[0];
    assert RankOk(w, s.origin, 0, rank);
    if !rank.phase.Dead? {
      assert c == Announced(w, s.origin, rank);
    }
  }

  /** When the group has halted, the log shows where: the step every completed line agrees on, and the
      checkpoint the next generation resumes. */
  lemma HaltedLogIsTheFence(w: Workload, actions: seq<Action>, s: State, paused: nat, pair: Pair)
    requires Reached(w, actions, s) && paused != 0 && Halted(w, s, paused) && !s.ranks[0].phase.Dead?
    requires Observed(s.logs[0]) == Some(pair)
    ensures pair.step == Completed(s.ranks[0]) && pair.checkpoint == ResumeStep(s.dir)
    ensures pair.checkpoint <= pair.step <= pair.checkpoint + w.every
  {
    ReachedIsOk(w, actions, s);
    HaltedMeansBlocked(w, s, paused);
    FenceExactly(w, actions, s, pair.checkpoint);
    assert RankOk(w, s.origin, 0, s.ranks[0]);
    BoundedLoss(w, actions, s, 0);
    CheckpointNotAhead(w, s);
  }

  lemma CheckpointNotAhead(w: Workload, s: State)
    requires Inv(w, s) && !s.ranks[0].phase.Dead? && s.ranks[0].entered > 0
    ensures Announced(w, s.origin, s.ranks[0]) <= Completed(s.ranks[0])
  {
    AnnouncedNotAhead(w, s.origin, s.ranks[0]);
  }

  lemma AnnouncedNotAhead(w: Workload, origin: nat, rank: Rank)
    requires Valid(w) && RankOk(w, origin, 0, rank) && !rank.phase.Dead? && rank.entered > 0
    ensures Announced(w, origin, rank) <= Completed(rank)
  {
    if rank.left > 0 && !rank.phase.Saving? {
      assert SlotOf(w, origin, rank.left) == Following(w, SlotOf(w, origin, rank.left - 1));
    }
  }

  predicate NoRestart(actions: seq<Action>) {
    forall a :: a in actions ==> !a.Restart?
  }

  lemma OriginKept(w: Workload, s: State, a: Action)
    requires Valid(w) && Sized(w, s) && Enabled(w, s, a) && !a.Restart?
    ensures Apply(w, s, a).origin == s.origin
  {
  }

  lemma {:induction false} OriginStays(w: Workload, s: State, actions: seq<Action>)
    requires Valid(w) && Sized(w, s) && CanRun(w, s, actions) && NoRestart(actions)
    ensures Run(w, s, actions).origin == s.origin
    decreases |actions|
  {
    if actions != [] {
      assert actions[0] in actions;
      OriginKept(w, s, actions[0]);
      OriginStays(w, Apply(w, s, actions[0]), actions[1..]);
    }
  }

  lemma HaltedCheckpoint(w: Workload, t: State, paused: nat, pair: Pair)
    requires Inv(w, t) && paused != 0 && Halted(w, t, paused) && !t.ranks[0].phase.Dead?
    requires Observed(t.logs[0]) == Some(pair)
    ensures pair.checkpoint == ResumeStep(t.dir) && pair.checkpoint > 0
  {
    HaltedMeansBlocked(w, t, paused);
    assert RankOk(w, t.origin, 0, t.ranks[0]);
    assert ProgressLogOk(w, t.origin, t.dir, t.ranks[0], t.logs[0]);
  }

  /** A group recreated on the directory of `t` reports, and holds, what `t` left to resume. */
  lemma NextGenerationResumes(w: Workload, t: State, torn: set<FileName>, after: seq<Action>, r: nat)
    requires Inv(w, t) && r < w.world
    requires var u := Apply(w, t, Restart(torn)); Sized(w, u) && CanRun(w, u, after) && NoRestart(after)
    ensures var v := Run(w, Apply(w, t, Restart(torn)), after);
      v.origin == ResumeStep(t.dir) &&
      ResumedCheckpointStep(v.logs[r], r) == (if v.ranks[r].entered == 0 then None else IfPast(0, v.origin)) &&
      (v.ranks[r].phase == Waiting(Start) ==> Holds(w, v.origin, r, v.ranks[r]))
  {
    var u := Apply(w, t, Restart(torn));
    CrashKeepsStore(w, t.dir, torn);
    assert u.origin == ResumeStep(t.dir);
    assert Inv(w, u) by { RestartKeeps(w, t, torn); }
    OriginStays(w, u, after);
    var v := Run(w, u, after);
    assert RankOk(w, v.origin, r, v.ranks[r]) && ResumeLogOk(v.origin, r, v.ranks[r], v.logs[r]) by {
      RunKeeps(w, u, after);
    }
  }

  predicate OnlyDeaths(actions: seq<Action>) {
    forall a :: a in actions ==> a.Die?
  }

  /** The group may come apart rank by rank; the files stay. */
  lemma {:induction false} DeathsKeepFiles(w: Workload, s: State, deaths: seq<Action>)
    requires Inv(w, s) && CanRun(w, s, deaths) && OnlyDeaths(deaths)
    ensures Inv(w, Run(w, s, deaths)) && Run(w, s, deaths).dir == s.dir
    decreases |deaths|
  {
    if deaths != [] {
      assert deaths[0] in deaths;
      DieKeeps(w, s, deaths[0].rank);
      DeathsKeepFiles(w, Apply(w, s, deaths[0]), deaths[1..]);
    }
  }

  /** The recovery fence. Rank `paused` is stopped in some reachable state; the others run until the
      group halts; the harness reads `pair` from rank 0's log; ranks die in any order; the group is
      recreated, tearing whatever was not synced. Then every rank of the new generation that has joined
      reports that it resumed exactly the fence, and holds the reference state of that step when it
      enters the first barrier. */
  lemma NextGenerationResumesTheFence(w: Workload, before: seq<Action>, s: State, paused: nat,
                                      stalling: seq<Action>, pair: Pair, deaths: seq<Action>,
                                      torn: set<FileName>, after: seq<Action>, r: nat)
    requires Reached(w, before, s) && 0 < paused < w.world && r < w.world
    requires CanRun(w, s, stalling) && AllSpare(stalling, paused)
    requires var t := Run(w, s, stalling);
      Halted(w, t, paused) && !t.ranks[0].phase.Dead? && Observed(t.logs[0]) == Some(pair) &&
      CanRun(w, t, deaths) && OnlyDeaths(deaths)
    requires var u := Apply(w, Run(w, Run(w, s, stalling), deaths), Restart(torn));
      Sized(w, u) && CanRun(w, u, after) && NoRestart(after)
    ensures |stalling| <= 46 * (w.world - 1)
    ensures var v := Run(w, Apply(w, Run(w, Run(w, s, stalling), deaths), Restart(torn)), after);
      v.origin == pair.checkpoint &&
      ResumedCheckpointStep(v.logs[r], r) ==
        (if v.ranks[r].entered == 0 then None else Some(pair.checkpoint)) &&
      (v.ranks[r].phase == Waiting(Start) ==> Holds(w, pair.checkpoint, r, v.ranks[r]))
  {
    ReachedIsOk(w, before, s);
    RunKeeps(w, s, stalling);
    PausedRankHaltsGroup(w, s, stalling, paused);
    var t := Run(w, s, stalling);
    HaltedCheckpoint(w, t, paused, pair);
    DeathsKeepFiles(w, t, deaths);
    NextGenerationResumes(w, Run(w, t, deaths), torn, after, r);
  }
}
