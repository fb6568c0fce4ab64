/** The SmolLM job as a state machine: N ranks meeting in collectives, rank 0 publishing checkpoints by
    single file-system steps, ranks dying at any moment, and the group being recreated. */
module TrainingMachine {
  import opened Options
  import opened Workload
  import opened CheckpointNames
  import opened CheckpointStore
  import opened TrainingLog

  /** The collectives of `main`, in program order within a step. `Start` is the barrier before the
      loop, `Commit` the one after a checkpoint. */
  datatype Kind = Start | Gradients | Metrics | Gather | Commit

  /** What a rank contributes on entering a collective. */
  datatype Message =
    | Beat
    | GradMessage(grad: Grad)
    | TokenMessage(tokens: nat)
    | RngMessage(rng: Rng)

  /** Where rank 0 is inside `save_checkpoint`. */
  datatype Io =
    | Create(target: FileName)
    | Write(target: FileName, random: string)
    | Sync(target: FileName, random: string)
    | Replace(target: FileName, random: string)
    | Cleanup(target: FileName, random: string)
    | Announce

  datatype Phase =
    | Booting
    | Located(file: Option<FileName>)
    | Waiting(kind: Kind)
    | Running
    | Saving(rngs: seq<Rng>, io: Io)
    | Done
    | Dead

  /** One rank: how many collectives it has entered and left, the step it is in or has just finished,
      and the training state it holds. */
  datatype Rank = Rank(
    phase: Phase,
    entered: nat,
    left: nat,
    step: nat,
    model: Model,
    rng: Rng,
    tokens: nat,
    examples: nat,
    localTokens: nat
  )

  /** `net` maps (call number, rank) to a contribution: the process group matches collectives by the
      order in which each rank calls them, not by what they are for. `origin` is the step the current
      generation found when it was created; `logs` are the logs of its pods. */
  datatype State = State(
    dir: Directory,
    net: map<(nat, nat), Message>,
    ranks: seq<Rank>,
    logs: seq<Log>,
    origin: nat
  )

  datatype Action =
    | Locate(rank: nat)
    | Restore(rank: nat)
    | Leave(rank: nat)
    | Compute(rank: nat)
    | Finish(rank: nat)
    | Save(random: string)
    | Raise
    | Die(rank: nat)
    | Restart(torn: set<FileName>)

  function Fits(m: Message, kind: Kind): bool {
    match kind
    case Gradients => m.GradMessage?
    case Metrics => m.TokenMessage?
    case Gather => m.RngMessage?
    case _ => m.Beat?
  }

  /** A collective completes at a rank only after every rank has entered it. */
  predicate AllEntered(w: Workload, net: map<(nat, nat), Message>, call: nat, kind: Kind) {
    forall q: nat :: q < w.world ==> (call, q) in net && Fits(net[(call, q)], kind)
  }

  function Booted(w: Workload, r: nat): Rank {
    Rank(Booting, 0, 0, 0, w.initial, w.seeded(r), 0, 0, 0)
  }

  /** A group that has just been created on `dir`. */
  ghost function NewGeneration(w: Workload, dir: Directory): State {
    State(dir, map[], seq(w.world, (r: nat) => Booted(w, r)), seq(w.world, (r: nat) => []), ResumeStep(dir))
  }

  /** The first generation of a new run name starts on an empty directory. */
  ghost function Init(w: Workload): State {
    NewGeneration(w, map[])
  }

  ghost predicate Enabled(w: Workload, s: State, a: Action)
    requires |s.ranks| == w.world
  {
    match a
    case Locate(r) => r < w.world && s.ranks[r].phase.Booting?
    case Restore(r) => r < w.world && s.ranks[r].phase.Located?
    case Leave(r) =>
      r < w.world && s.ranks[r].phase.Waiting? &&
      AllEntered(w, s.net, s.ranks[r].left, s.ranks[r].phase.kind)
    case Compute(r) => r < w.world && s.ranks[r].phase.Running? && s.ranks[r].step < w.maxSteps
    case Finish(r) => r < w.world && s.ranks[r].phase.Running? && s.ranks[r].step >= w.maxSteps
    case Save(random) =>
      0 < w.world && s.ranks[0].phase.Saving? &&
      (s.ranks[0].phase.io.Create? ==> Temp(s.ranks[0].phase.io.target, random) !in s.dir)
    case Raise => 0 < w.world && s.ranks[0].phase.Saving?
    case Die(r) => r < w.world && !s.ranks[r].phase.Dead?
    case Restart(torn) => true
  }

  function WithRank(s: State, r: nat, rank: Rank): (t: State)
    requires r < |s.ranks|
    ensures |t.ranks| == |s.ranks| && |t.logs| == |s.logs|
  {
    s.(ranks := s.ranks[r := rank])
  }

  function WithLine(s: State, r: nat, line: Line): (t: State)
    requires r < |s.logs|
    ensures |t.ranks| == |s.ranks| && |t.logs| == |s.logs|
  {
    s.(logs := s.logs[r := s.logs[r] + [line]])
  }

  /** Rank `r`, now `rank`, enters its next collective. */
  function Enter(s: State, r: nat, rank: Rank, kind: Kind, m: Message): (t: State)
    requires r < |s.ranks|
    ensures |t.ranks| == |s.ranks| && |t.logs| == |s.logs|
  {
    WithRank(s, r, rank.(phase := Waiting(kind), entered := rank.entered + 1)).(
      net := s.net[(rank.entered, r) := m])
  }

  function Loaded(rank: Rank, p: Payload, r: nat): Rank
    requires r < |p.snapshot.rngs|
  {
    rank.(
      step := p.step,
      model := p.snapshot.model,
      rng := p.snapshot.rngs[r],
      tokens := p.snapshot.tokens,
      examples := p.snapshot.examples)
  }

  /** Reading the chosen checkpoint; a file that cannot be read, or one without this rank's generator
      state, makes the process exit. */
  function ApplyRestore(s: State, r: nat): (t: State)
    requires r < |s.ranks| == |s.logs| && s.ranks[r].phase.Located?
    ensures |t.ranks| == |s.ranks| && |t.logs| == |s.logs|
  {
    var rank := s.ranks[r];
    match rank.phase.file
    case None => Enter(s, r, rank, Start, Beat)
    case Some(file) =>
      match Readable(s.dir, file)
      case None => WithRank(s, r, rank.(phase := Dead))
      case Some(p) =>
        if r < |p.snapshot.rngs| then
          Enter(WithLine(s, r, ResumeLine(p.step, r)), r, Loaded(rank, p, r), Start, Beat)
        else WithRank(s, r, rank.(phase := Dead))
  }

  /** A rank's local part of its next step. */
  function LocalWork(w: Workload, r: nat, rank: Rank): Local {
    w.accumulate(rank.model, rank.rng, StepRows(w, r, rank.examples))
  }

  function Computed(w: Workload, r: nat, rank: Rank): Rank {
    rank.(
      step := rank.step + 1,
      rng := LocalWork(w, r, rank).rng,
      examples := rank.examples + w.accumulation,
      localTokens := LocalWork(w, r, rank).tokens)
  }

  function ApplyCompute(w: Workload, s: State, r: nat): (t: State)
    requires r < |s.ranks|
    ensures |t.ranks| == |s.ranks| && |t.logs| == |s.logs|
  {
    Enter(s, r, Computed(w, r, s.ranks[r]), Gradients, GradMessage(LocalWork(w, r, s.ranks[r]).grad))
  }

  function Grads(w: Workload, net: map<(nat, nat), Message>, call: nat): seq<Grad>
    requires AllEntered(w, net, call, Gradients)
  {
    seq(w.world, (q: nat) requires q < w.world => net[(call, q)].grad)
  }

  function Tokens(w: Workload, net: map<(nat, nat), Message>, call: nat): seq<nat>
    requires AllEntered(w, net, call, Metrics)
  {
    seq(w.world, (q: nat) requires q < w.world => net[(call, q)].tokens)
  }

  function Rngs(w: Workload, net: map<(nat, nat), Message>, call: nat): seq<Rng>
    requires AllEntered(w, net, call, Gather)
  {
    seq(w.world, (q: nat) requires q < w.world => net[(call, q)].rng)
  }

  /** A rank leaves the collective it waits in and runs on to its next shared action. */
  function ApplyLeave(w: Workload, s: State, r: nat): (t: State)
    requires r < |s.ranks| == |s.logs| && s.ranks[r].phase.Waiting? && w.every >= 1
    requires AllEntered(w, s.net, s.ranks[r].left, s.ranks[r].phase.kind)
    ensures |t.ranks| == |s.ranks| && |t.logs| == |s.logs|
  {
    var rank := s.ranks[r].(left := s.ranks[r].left + 1);
    var call := s.ranks[r].left;
    match s.ranks[r].phase.kind
    case Start => WithRank(s, r, rank.(phase := Running))
    case Gradients =>
      Enter(s, r, rank.(model := w.update(rank.model, w.reduce(Grads(w, s.net, call)))),
            Metrics, TokenMessage(rank.localTokens))
    case Metrics =>
      var after := rank.(tokens := rank.tokens + Sum(Tokens(w, s.net, call)));
      var logged := if r == 0 then WithLine(s, r, StepLine(rank.step)) else s;
      if rank.step % w.every == 0 then Enter(logged, r, after, Gather, RngMessage(rank.rng))
      else WithRank(logged, r, after.(phase := Running))
    case Gather =>
      if r == 0 then WithRank(s, r, rank.(phase := Saving(Rngs(w, s.net, call), Create(StepFile(rank.step)))))
      else Enter(s, r, rank, Commit, Beat)
    case Commit => WithRank(s, r, rank.(phase := Running))
  }

  function PayloadOf(rank: Rank, rngs: seq<Rng>): Payload {
    Payload(rank.step, Snapshot(rank.model, rngs, rank.tokens, rank.examples))
  }

  /** One file-system call of `save_checkpoint`, made by rank 0. */
  function ApplySave(s: State, random: string): (t: State)
    requires |s.ranks| > 0 && |s.logs| > 0 && s.ranks[0].phase.Saving?
    ensures |t.ranks| == |s.ranks| && |t.logs| == |s.logs|
  {
    var rank := s.ranks[0];
    var rngs := rank.phase.rngs;
    var payload := PayloadOf(rank, rngs);
    match rank.phase.io
    case Create(target) =>
      Goto(s, rngs, Write(target, random), s.dir[Temp(target, random) := Torn])
    case Write(target, name) =>
      Goto(s, rngs, Sync(target, name), s.dir[Temp(target, name) := Unsynced(payload)])
    case Sync(target, name) =>
      Goto(s, rngs, Replace(target, name), s.dir[Temp(target, name) := Synced(payload)])
    case Replace(target, name) =>
      var temporary := Temp(target, name);
      var content := if temporary in s.dir then s.dir[temporary] else Torn;
      Goto(s, rngs, Cleanup(target, name), s.dir[target := content] - {temporary})
    case Cleanup(target, name) =>
      Goto(s, rngs, if target.Latest? then Announce else Create(Latest), s.dir - {Temp(target, name)})
    case Announce =>
      Enter(WithLine(s, 0, CheckpointLine(rank.step)), 0, rank, Commit, Beat)
  }

  /** A call of `save_checkpoint` raises: the temporary file is removed and rank 0 exits. */
  function ApplyRaise(s: State): (t: State)
    requires |s.ranks| > 0 && s.ranks[0].phase.Saving?
    ensures |t.ranks| == |s.ranks| && |t.logs| == |s.logs|
  {
    var io := s.ranks[0].phase.io;
    var dead := WithRank(s, 0, s.ranks[0].(phase := Dead));
    if io.Create? || io.Announce? then dead
    else dead.(dir := s.dir - {Temp(io.target, io.random)})
  }

  function Goto(s: State, rngs: seq<Rng>, io: Io, dir: Directory): (t: State)
    requires |s.ranks| > 0
    ensures |t.ranks| == |s.ranks| && |t.logs| == |s.logs|
  {
    WithRank(s, 0, s.ranks[0].(phase := Saving(rngs, io))).(dir := dir)
  }

  ghost function Apply(w: Workload, s: State, a: Action): (t: State)
    requires |s.ranks| == w.world == |s.logs| && w.every >= 1
    requires Enabled(w, s, a)
    ensures |t.ranks| == w.world == |t.logs|
  {
    match a
    case Locate(r) => WithRank(s, r, s.ranks[r].(phase := Located(LatestCheckpoint(s.dir))))
    case Restore(r) => ApplyRestore(s, r)
    case Leave(r) => ApplyLeave(w, s, r)
    case Compute(r) => ApplyCompute(w, s, r)
    case Finish(r) => WithRank(s, r, s.ranks[r].(phase := Done))
    case Save(random) => ApplySave(s, random)
    case Raise => ApplyRaise(s)
    case Die(r) => WithRank(s, r, s.ranks[r].(phase := Dead))
    case Restart(torn) => NewGeneration(w, AfterCrash(s.dir, torn))
  }

  ghost predicate Sized(w: Workload, s: State) {
    |s.ranks| == w.world == |s.logs|
  }

  /** `actions` can be taken one after the other from `s`. */
  ghost predicate CanRun(w: Workload, s: State, actions: seq<Action>)
    requires Valid(w) && Sized(w, s)
    decreases |actions|
  {
    actions == [] ||
    (Enabled(w, s, actions[0]) && CanRun(w, Apply(w, s, actions[0]), actions[1..]))
  }

  ghost function Run(w: Workload, s: State, actions: seq<Action>): (t: State)
    requires Valid(w) && Sized(w, s) && CanRun(w, s, actions)
    ensures Sized(w, t)
    decreases |actions|
  {
    if actions == [] then s else Run(w, Apply(w, s, actions[0]), actions[1..])
  }
}
