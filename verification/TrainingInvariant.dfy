/** What holds in every reachable state of the training machine. */
module TrainingInvariant {
  import opened Options
  import opened Decimal
  import opened Workload
  import opened CheckpointNames
  import opened CheckpointStore
  import opened TrainingLog
  import opened TrainingMachine

  /** What the collective with a given call number is for. */
  datatype Slot = Slot(kind: Kind, step: nat)

  function Following(w: Workload, x: Slot): Slot
    requires w.every >= 1
  {
    match x.kind
    case Start => Slot(Gradients, x.step + 1)
    case Gradients => Slot(Metrics, x.step)
    case Metrics => if x.step % w.every == 0 then Slot(Gather, x.step) else Slot(Gradients, x.step + 1)
    case Gather => Slot(Commit, x.step)
    case Commit => Slot(Gradients, x.step + 1)
  }

  /** The program order of collectives in a generation that starts at `origin`. */
  function SlotOf(w: Workload, origin: nat, call: nat): (x: Slot)
    requires w.every >= 1
    ensures x.step >= origin
    ensures x.kind.Start? <==> call == 0
    ensures !x.kind.Start? ==> x.step >= origin + 1
    ensures x.kind.Gather? || x.kind.Commit? ==> x.step % w.every == 0
  {
    if call == 0 then Slot(Start, origin) else Following(w, SlotOf(w, origin, call - 1))
  }

  /** The last checkpointed step at or before `k`. */
  function Floor(w: Workload, k: nat): (f: nat)
    requires w.every >= 1
    ensures f <= k < f + w.every
    ensures k % w.every == 0 ==> f == k
  {
    RoundDown(k, w.every)
  }

  /** The step that must be resumable before rank 0 can enter a collective. */
  function Durable(w: Workload, x: Slot): nat
    requires w.every >= 1
  {
    if x.kind.Start? || x.kind.Commit? || x.step == 0 then x.step else Floor(w, x.step - 1)
  }

  lemma DurableGrows(w: Workload, origin: nat, call: nat)
    requires w.every >= 1 && origin % w.every == 0
    ensures Durable(w, SlotOf(w, origin, call)) <= Durable(w, SlotOf(w, origin, call + 1))
  {
    var x := SlotOf(w, origin, call);
    if x.kind.Metrics? && x.step % w.every != 0 {
      RoundDownSkips(x.step, w.every);
    }
  }

  lemma {:induction false} DurableIsMonotone(w: Workload, origin: nat, c: nat, d: nat)
    requires w.every >= 1 && origin % w.every == 0 && c <= d
    ensures Durable(w, SlotOf(w, origin, c)) <= Durable(w, SlotOf(w, origin, d))
    decreases d
  {
    if c < d {
      DurableIsMonotone(w, origin, c, d - 1);
      DurableGrows(w, origin, d - 1);
    }
  }

  /** What the reference run contributes to a collective. */
  function Contribution(w: Workload, x: Slot, q: nat): Message
    requires q < w.world
  {
    match x.kind
    case Gradients => if x.step == 0 then Beat else GradMessage(LocalAt(w, x.step, q).grad)
    case Metrics => if x.step == 0 then Beat else TokenMessage(LocalAt(w, x.step, q).tokens)
    case Gather => RngMessage(Reference(w, x.step).rngs[q])
    case _ => Beat
  }

  function PayloadAt(w: Workload, k: nat): Payload {
    Payload(k, Reference(w, k))
  }

  /** Rank `r` holds exactly its share of the reference state after `k` steps. */
  ghost predicate Holds(w: Workload, k: nat, r: nat, rank: Rank)
    requires r < w.world
  {
    var s := Reference(w, k);
    rank.step == k && rank.model == s.model && rank.rng == s.rngs[r] &&
    rank.tokens == s.tokens && rank.examples == s.examples
  }

  /** Rank `r` has done its local part of step `rank.step`, and if `updated` the optimizer step too. */
  ghost predicate HoldsMidStep(w: Workload, r: nat, rank: Rank, updated: bool)
    requires r < w.world
  {
    rank.step >= 1 &&
    var before, after := Reference(w, rank.step - 1), Reference(w, rank.step);
    rank.model == (if updated then after else before).model &&
    rank.rng == after.rngs[r] && rank.tokens == before.tokens && rank.examples == after.examples &&
    rank.localTokens == LocalAt(w, rank.step, r).tokens
  }

  ghost predicate RankOk(w: Workload, origin: nat, r: nat, rank: Rank)
    requires w.every >= 1 && r < w.world
  {
    match rank.phase
    case Booting => rank.(phase := Booting) == Booted(w, r)
    case Located(file) => rank.(phase := Booting) == Booted(w, r)
    case Waiting(kind) =>
      rank.entered == rank.left + 1 && SlotOf(w, origin, rank.left) == Slot(kind, rank.step) &&
      rank.step <= w.maxSteps &&
      if kind.Gradients? then HoldsMidStep(w, r, rank, false)
      else if kind.Metrics? then HoldsMidStep(w, r, rank, true)
      else Holds(w, rank.step, r, rank)
    case Running => AtLoopTop(w, origin, r, rank)
    case Done => AtLoopTop(w, origin, r, rank) && rank.step == w.maxSteps
    case Saving(rngs, io) =>
      r == 0 && rank.entered == rank.left >= 1 &&
      SlotOf(w, origin, rank.left - 1) == Slot(Gather, rank.step) && rank.step <= w.maxSteps &&
      Holds(w, rank.step, r, rank) && rngs == Reference(w, rank.step).rngs
    case Dead => rank.left <= rank.entered <= rank.left + 1
  }

  ghost predicate AtLoopTop(w: Workload, origin: nat, r: nat, rank: Rank)
    requires w.every >= 1 && r < w.world
  {
    rank.entered == rank.left >= 1 && SlotOf(w, origin, rank.left) == Slot(Gradients, rank.step + 1) &&
    rank.step <= w.maxSteps && Holds(w, rank.step, r, rank)
  }

  /** A step at which the job saves. */
  predicate SavedStep(w: Workload, k: nat)
    requires w.every >= 1
  {
    0 < k <= w.maxSteps && k % w.every == 0
  }

  /** Every published file is complete and holds the reference state of its step. */
  ghost predicate StoreOk(w: Workload, dir: Directory)
    requires w.every >= 1
  {
    forall f :: f in dir && !f.Temp? ==>
      dir[f].Synced? && SavedStep(w, dir[f].payload.step) &&
      dir[f].payload == PayloadAt(w, dir[f].payload.step) &&
      (f.StepFile? ==> f.step == dir[f].payload.step)
  }

  ghost predicate NetOk(w: Workload, origin: nat, net: map<(nat, nat), Message>, ranks: seq<Rank>)
    requires w.every >= 1 && |ranks| == w.world
  {
    (forall c: nat, q: nat :: (c, q) in net <==> q < w.world && c < ranks[q].entered) &&
    (forall c: nat, q: nat :: (c, q) in net ==> q < w.world && net[(c, q)] == Contribution(w, SlotOf(w, origin, c), q))
  }

  /** A collective that some rank has left has been entered by all. */
  ghost predicate OrderOk(ranks: seq<Rank>) {
    forall q, r :: 0 <= q < |ranks| && 0 <= r < |ranks| ==> ranks[r].left <= ranks[q].entered
  }

  ghost predicate LocatedOk(dir: Directory, ranks: seq<Rank>) {
    forall r :: 0 <= r < |ranks| && ranks[r].phase.Located? ==> ranks[r].phase.file == LatestCheckpoint(dir)
  }

  /** How far rank 0's save has come: 0 before the numbered file is published, 1 before `latest.pt`
      is, 2 after. */
  function SaveProgress(io: Io): nat {
    match io
    case Announce => 2
    case Create(target) => if target.Latest? then 1 else 0
    case Write(target, random) => if target.Latest? then 1 else 0
    case Sync(target, random) => if target.Latest? then 1 else 0
    case Replace(target, random) => if target.Latest? then 1 else 0
    case Cleanup(target, random) => if target.Latest? then 2 else 1
  }

  /** The temporary file of a save in progress is as far as its stage says. */
  ghost predicate IoOk(dir: Directory, step: nat, payload: Payload, io: Io) {
    match io
    case Announce => true
    case Create(target) => target in {StepFile(step), Latest}
    case Write(target, random) => target in {StepFile(step), Latest}
    case Sync(target, random) => target in {StepFile(step), Latest}
    case Replace(target, random) =>
      target in {StepFile(step), Latest} && Temp(target, random) in dir &&
      dir[Temp(target, random)] == Synced(payload)
    case Cleanup(target, random) => target in {StepFile(step), Latest}
  }

  /** What rank 0's position says about the step a new generation would resume. */
  ghost predicate PublishOk(w: Workload, origin: nat, dir: Directory, rank: Rank)
    requires w.every >= 1
  {
    var resumable := ResumeStep(dir);
    (rank.left == 0 ==> resumable == origin) &&
    (rank.left > 0 && rank.entered > 0 && rank.phase.Dead? ==>
       resumable >= Durable(w, SlotOf(w, origin, rank.entered - 1))) &&
    (rank.left > 0 && rank.entered > 0 && !rank.phase.Dead? && !rank.phase.Saving? ==>
       resumable == Durable(w, SlotOf(w, origin, rank.entered - 1))) &&
    (rank.phase.Saving? ==>
       rank.step >= 1 && IoOk(dir, rank.step, PayloadAt(w, rank.step), rank.phase.io) &&
       (SaveProgress(rank.phase.io) == 0 ==> resumable == Floor(w, rank.step - 1)) &&
       (SaveProgress(rank.phase.io) == 1 ==>
          resumable in {Floor(w, rank.step - 1), rank.step} &&
          (Latest in dir ==> resumable == Floor(w, rank.step - 1))) &&
       (SaveProgress(rank.phase.io) == 2 ==> Latest in dir && resumable == rank.step))
  }

  /** The last step a live rank has completed. */
  function Completed(rank: Rank): nat {
    if rank.phase.Waiting? && (rank.phase.kind.Gradients? || rank.phase.kind.Metrics?) && rank.step >= 1
    then rank.step - 1 else rank.step
  }

  /** The last checkpoint a live rank 0 has announced, or the one it started from. */
  function Announced(w: Workload, origin: nat, rank: Rank): nat
    requires w.every >= 1
  {
    if rank.left == 0 then origin
    else if rank.entered == 0 then origin
    else if rank.phase.Saving? then (if rank.step >= 1 then Floor(w, rank.step - 1) else 0)
    else Durable(w, SlotOf(w, origin, rank.entered - 1))
  }

  function IfPast(origin: nat, k: nat): Option<nat> {
    if k > origin then Some(k) else None
  }

  /** What rank `r`'s log says about its own start. */
  predicate ResumeLogOk(origin: nat, r: nat, rank: Rank, log: Log) {
    ResumedCheckpointStep(log, r) == if rank.entered == 0 then None else IfPast(0, origin)
  }

  /** What rank 0's log says about progress. */
  ghost predicate ProgressLogOk(w: Workload, origin: nat, dir: Directory, rank: Rank, log: Log)
    requires w.every >= 1
  {
    (!rank.phase.Dead? ==>
       LatestTrainingStep(log) == IfPast(origin, Completed(rank)) &&
       LatestCheckpointStep(log) == IfPast(origin, Announced(w, origin, rank))) &&
    (LatestCheckpointStep(log).Some? ==>
       Latest in dir && dir[Latest].Synced? && LatestCheckpointStep(log).value <= dir[Latest].payload.step)
  }

  /** The part of the invariant about ranks and collectives. */
  ghost predicate Lockstep(w: Workload, s: State) {
    Valid(w) && Sized(w, s) && s.origin % w.every == 0 && s.origin <= w.maxSteps &&
    (forall r :: 0 <= r < w.world ==> RankOk(w, s.origin, r, s.ranks[r])) &&
    NetOk(w, s.origin, s.net, s.ranks) && OrderOk(s.ranks)
  }

  ghost predicate LogsOk(w: Workload, s: State)
    requires Valid(w) && Sized(w, s)
  {
    (forall r :: 0 <= r < w.world ==> ResumeLogOk(s.origin, r, s.ranks[r], s.logs[r])) &&
    ProgressLogOk(w, s.origin, s.dir, s.ranks[0], s.logs[0])
  }

  ghost predicate Inv(w: Workload, s: State) {
    Lockstep(w, s) && StoreOk(w, s.dir) && LocatedOk(s.dir, s.ranks) &&
    PublishOk(w, s.origin, s.dir, s.ranks[0]) && LogsOk(w, s)
  }
}
