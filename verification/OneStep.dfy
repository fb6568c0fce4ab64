/** One training step, one save and one crash, said in terms of rows, messages and arguments alone. */
module OneStep {
  import opened Workload
  import opened CheckpointNames
  import opened CheckpointStore
  import opened TrainingLog
  import opened TrainingMachine
  import opened TrainingTheorems

  /** The run that never crashes starts from the arguments. */
  lemma ReferenceStarts(w: Workload, r: nat)
    requires r < w.world
    ensures var s := Reference(w, 0);
      s.model == w.initial && s.rngs[r] == w.seeded(r) && s.tokens == 0 && s.examples == 0
  {
  }

  /** And so does every rank of every run that has not completed a step. */
  lemma RunStarts(w: Workload, actions: seq<Action>, s: State, r: nat)
    requires Reached(w, actions, s) && r < w.world && BetweenSteps(s.ranks[r]) && s.ranks[r].step == 0
    ensures s.ranks[r].model == w.initial && s.ranks[r].rng == w.seeded(r)
    ensures s.ranks[r].tokens == 0 && s.ranks[r].examples == 0
  {
    CrashResumeRefinement(w, actions, s, r);
    ReferenceStarts(w, r);
  }

  /** One step of the run that never crashes: every rank accumulates over the rows dealt to it, the
      gradients are reduced in the order of the ranks, the tokens are added up. */
  lemma ReferenceStep(w: Workload, k: nat, rows: seq<seq<Row>>, locals: seq<Local>, grads: seq<Grad>, totals: seq<nat>)
    requires |rows| == |locals| == |grads| == w.world && |totals| == w.world + 1 && totals[0] == 0
    requires forall q: nat :: q < w.world ==> |rows[q]| == w.accumulation
    requires forall q: nat, j: nat :: q < w.world && j < w.accumulation ==>
      rows[q][j] == w.row(q + (k * w.accumulation + j) * w.world)
    requires forall q: nat :: q < w.world ==>
      locals[q] == w.accumulate(Reference(w, k).model, Reference(w, k).rngs[q], rows[q]) &&
      grads[q] == locals[q].grad && totals[q + 1] == totals[q] + locals[q].tokens
    ensures var s, t := Reference(w, k), Reference(w, k + 1);
      t.model == w.update(s.model, w.reduce(grads)) && t.tokens == s.tokens + totals[w.world] &&
      t.examples == (k + 1) * w.accumulation && forall q: nat :: q < w.world ==> t.rngs[q] == locals[q].rng
  {
    var s := Reference(w, k);
    forall q: nat | q < w.world
      ensures LocalStep(w, s, q) == locals[q]
    {
      ReferenceRows(w, k, q, rows[q]);
    }
    var counts := seq(w.world, (q: nat) requires q < w.world => LocalStep(w, s, q).tokens);
    RunningTotal(counts, totals);
    assert seq(w.world, (q: nat) requires q < w.world => LocalStep(w, s, q).grad) == grads;
    ExamplesCountSteps(w, k + 1);
  }

  lemma ReferenceRows(w: Workload, k: nat, q: nat, rows: seq<Row>)
    requires |rows| == w.accumulation
    requires forall j: nat :: j < w.accumulation ==> rows[j] == w.row(q + (k * w.accumulation + j) * w.world)
    ensures StepRows(w, q, Reference(w, k).examples) == rows
  {
    ExamplesCountSteps(w, k);
    forall j: nat | j < w.accumulation
      ensures StepRows(w, q, k * w.accumulation)[j] == rows[j]
    {
      assert rows[j] == DealtRow(w, q, k * w.accumulation + j);
    }
  }

  /** Leaving the gradient all-reduce: the update by the reduction of all ranks' messages, rank by rank. */
  lemma LeavingGradients(w: Workload, s: State, r: nat, grads: seq<Grad>)
    requires Valid(w) && Sized(w, s) && Enabled(w, s, Leave(r)) && s.ranks[r].phase == Waiting(Gradients)
    requires |grads| == w.world
    requires forall q: nat :: q < w.world ==>
      (s.ranks[r].left, q) in s.net && s.net[(s.ranks[r].left, q)] == GradMessage(grads[q])
    ensures var t := Apply(w, s, Leave(r));
      t.ranks[r].model == w.update(s.ranks[r].model, w.reduce(grads)) && t.ranks[r].phase == Waiting(Metrics) &&
      t.net[(s.ranks[r].entered, r)] == TokenMessage(s.ranks[r].localTokens)
  {
    assert Grads(w, s.net, s.ranks[r].left) == grads;
  }

  /** Leaving the metrics all-reduce: the messages of all ranks are added to the count, rank 0 reports the
      step, and the generators are gathered exactly if the step is a multiple of `checkpoint_every`. */
  lemma LeavingMetrics(w: Workload, s: State, r: nat, totals: seq<nat>)
    requires Valid(w) && Sized(w, s) && Enabled(w, s, Leave(r)) && s.ranks[r].phase == Waiting(Metrics)
    requires |totals| == w.world + 1 && totals[0] == 0
    requires forall q: nat :: q < w.world ==>
      (s.ranks[r].left, q) in s.net && s.net[(s.ranks[r].left, q)].TokenMessage? &&
      totals[q + 1] == totals[q] + s.net[(s.ranks[r].left, q)].tokens
    ensures var t := Apply(w, s, Leave(r));
      t.ranks[r].tokens == s.ranks[r].tokens + totals[w.world] &&
      t.logs[r] == (if r == 0 then s.logs[r] + [StepLine(s.ranks[r].step)] else s.logs[r]) &&
      t.ranks[r].phase == if s.ranks[r].step % w.every == 0 then Waiting(Gather) else Running
  {
    RunningTotal(Tokens(w, s.net, s.ranks[r].left), totals);
  }

  /** Leaving the gather: rank 0 saves the numbered file with the generators of all ranks, rank by rank. */
  lemma LeavingGather(w: Workload, s: State, r: nat, rngs: seq<Rng>)
    requires Valid(w) && Sized(w, s) && Enabled(w, s, Leave(r)) && s.ranks[r].phase == Waiting(Gather)
    requires |rngs| == w.world
    requires forall q: nat :: q < w.world ==>
      (s.ranks[r].left, q) in s.net && s.net[(s.ranks[r].left, q)] == RngMessage(rngs[q])
    ensures Apply(w, s, Leave(r)).ranks[r].phase ==
      if r == 0 then Saving(rngs, Create(StepFile(s.ranks[r].step))) else Waiting(Commit)
  {
    assert Rngs(w, s.net, s.ranks[r].left) == rngs;
  }

  /** How many calls of a save are behind. */
  function Stage(io: Io): nat {
    match io
    case Create(target) => 0
    case Write(target, random) => 1
    case Sync(target, random) => 2
    case Replace(target, random) => 3
    case Cleanup(target, random) => 4
    case Announce => 5
  }

  /** `n` calls of a save go through, the next one raises. */
  function CallsThenRaise(s: State, random: string, n: nat): State
    requires |s.ranks| > 0 && |s.logs| > 0 && s.ranks[0].phase.Saving? && Stage(s.ranks[0].phase.io) + n <= 4
    decreases n
  {
    if n == 0 then ApplyRaise(s) else CallsThenRaise(ApplySave(s, random), random, n - 1)
  }

  /** The directory in the middle of a save of `target` that began on `before`. */
  predicate MidSave(s: State, before: Directory, target: FileName, random: string, payload: Payload)
    requires |s.ranks| > 0 && s.ranks[0].phase.Saving?
  {
    var temp := Temp(target, random);
    match s.ranks[0].phase.io
    case Create(file) => file == target && s.dir == before
    case Write(file, name) => file == target && name == random && s.dir == before[temp := Torn]
    case Sync(file, name) => file == target && name == random && s.dir == before[temp := Unsynced(payload)]
    case Replace(file, name) => file == target && name == random && s.dir == before[temp := Synced(payload)]
    case Cleanup(file, name) => file == target && name == random && s.dir == before[target := Synced(payload)]
    case Announce => false
  }

  lemma CallKeepsMidSave(s: State, before: Directory, target: FileName, random: string, payload: Payload)
    requires |s.ranks| > 0 && |s.logs| > 0 && s.ranks[0].phase.Saving? && Stage(s.ranks[0].phase.io) < 4
    requires !target.Temp? && Temp(target, random) !in before && MidSave(s, before, target, random, payload)
    requires payload == PayloadOf(s.ranks[0], s.ranks[0].phase.rngs)
    ensures var t := ApplySave(s, random);
      t == s.(dir := t.dir, ranks := s.ranks[0 := s.ranks[0].(phase := t.ranks[0].phase)]) &&
      t.ranks[0].phase.Saving? && t.ranks[0].phase.rngs == s.ranks[0].phase.rngs &&
      Stage(t.ranks[0].phase.io) == Stage(s.ranks[0].phase.io) + 1 && MidSave(t, before, target, random, payload)
  {
    var temp := Temp(target, random);
    assert before[temp := Torn][temp := Unsynced(payload)] == before[temp := Unsynced(payload)];
    assert before[temp := Unsynced(payload)][temp := Synced(payload)] == before[temp := Synced(payload)];
    assert before[temp := Synced(payload)][target := Synced(payload)] - {temp} == before[target := Synced(payload)];
  }

  lemma RaiseEndsSave(s: State, before: Directory, target: FileName, random: string, payload: Payload)
    requires |s.ranks| > 0 && s.ranks[0].phase.Saving? && MidSave(s, before, target, random, payload)
    requires !target.Temp? && Temp(target, random) !in before
    ensures ApplyRaise(s) == s.(
      ranks := s.ranks[0 := s.ranks[0].(phase := Dead)],
      dir := if Stage(s.ranks[0].phase.io) == 4 then before[target := Synced(payload)] else before)
  {
    var temp := Temp(target, random);
    assert before[temp := Torn] - {temp} == before == before[temp := Unsynced(payload)] - {temp};
    assert before[temp := Synced(payload)] - {temp} == before;
    assert before[target := Synced(payload)] - {temp} == before[target := Synced(payload)];
  }

  lemma {:induction false} CallsFrom(s: State, before: Directory, target: FileName, random: string, payload: Payload,
                                     n: nat)
    requires |s.ranks| > 0 && |s.logs| > 0 && s.ranks[0].phase.Saving? && Stage(s.ranks[0].phase.io) + n <= 4
    requires !target.Temp? && Temp(target, random) !in before && MidSave(s, before, target, random, payload)
    requires payload == PayloadOf(s.ranks[0], s.ranks[0].phase.rngs)
    ensures CallsThenRaise(s, random, n) == s.(
      ranks := s.ranks[0 := s.ranks[0].(phase := Dead)],
      dir := if Stage(s.ranks[0].phase.io) + n == 4 then before[target := Synced(payload)] else before)
    decreases n
  {
    if n == 0 {
      RaiseEndsSave(s, before, target, random, payload);
    } else {
      CallKeepsMidSave(s, before, target, random, payload);
      CallsFrom(ApplySave(s, random), before, target, random, payload, n - 1);
    }
  }

  /** A save that raises: rank 0 exits, and the directory is the old one, or the old one with the file
      complete, as `AtomicTorchSave` promises; the temporary file is gone. */
  lemma FailedSave(s: State, random: string, n: nat)
    requires |s.ranks| > 0 && |s.logs| > 0 && s.ranks[0].phase.Saving? && s.ranks[0].phase.io.Create? && n <= 4
    requires var target := s.ranks[0].phase.io.target; !target.Temp? && Temp(target, random) !in s.dir
    ensures var target, rngs := s.ranks[0].phase.io.target, s.ranks[0].phase.rngs;
      CallsThenRaise(s, random, n) == s.(
        ranks := s.ranks[0 := s.ranks[0].(phase := Dead)],
        dir := if n == 4 then s.dir[target := Synced(PayloadOf(s.ranks[0], rngs))] else s.dir)
  {
    CallsFrom(s, s.dir, s.ranks[0].phase.io.target, random, PayloadOf(s.ranks[0], s.ranks[0].phase.rngs), n);
  }

  lemma {:induction false} OneMore(w: Workload, s: State, actions: seq<Action>, a: Action)
    requires Valid(w) && Sized(w, s) && CanRun(w, s, actions) && Enabled(w, Run(w, s, actions), a)
    ensures CanRun(w, s, actions + [a])
    ensures Run(w, s, actions + [a]) == Apply(w, Run(w, s, actions), a)
    decreases |actions|
  {
    var all := actions + [a];
    if actions == [] {
      assert all[0] == a && all[1..] == [];
    } else {
      OneMore(w, Apply(w, s, actions[0]), actions[1..], a);
      assert all[0] == actions[0] && all[1..] == actions[1..] + [a];
    }
  }

  /** A crash may come at any moment of any run and may tear any file that is not synced: the group starts
      again on what is left. */
  lemma CrashAtAnyMoment(w: Workload, actions: seq<Action>, s: State, torn: set<FileName>) returns (t: State)
    requires Reached(w, actions, s)
    ensures Reached(w, actions + [Restart(torn)], t)
    ensures t.dir.Keys == s.dir.Keys && t.net == map[] && t.origin == ResumeStep(t.dir)
    ensures forall f :: f in s.dir ==> t.dir[f] == if f in torn && s.dir[f].Unsynced? then Torn else s.dir[f]
    ensures forall r :: 0 <= r < w.world ==> t.ranks[r].phase.Booting? && t.logs[r] == []
  {
    OneMore(w, Init(w), actions, Restart(torn));
    t := Apply(w, s, Restart(torn));
  }

  /** Any rank that is alive may die at any moment, which changes nothing else; and any save may raise. */
  lemma DeathAtAnyMoment(w: Workload, actions: seq<Action>, s: State, r: nat)
    requires Reached(w, actions, s) && r < w.world && !s.ranks[r].phase.Dead?
    ensures Enabled(w, s, Die(r))
    ensures Reached(w, actions + [Die(r)], s.(ranks := s.ranks[r := s.ranks[r].(phase := Dead)]))
    ensures s.ranks[0].phase.Saving? ==> Enabled(w, s, Raise)
  {
    OneMore(w, Init(w), actions, Die(r));
  }
}
