/** Lines of a training pod's log and what the recovery harness extracts from them. */
module TrainingLog {
  import opened Options

  datatype Line =
    | StepLine(step: nat)
    | CheckpointLine(step: nat)
    | ResumeLine(step: nat, rank: nat)
    | OtherLine

  type Log = seq<Line>

  function Max(a: nat, b: nat): nat {
    if a < b then b else a
  }

  function Larger(a: Option<nat>, b: nat): Option<nat> {
    if a.None? then Some(b) else Some(Max(a.value, b))
  }

  /** `latest_training_step`: the greatest step any line reports. */
  function LatestTrainingStep(log: Log): Option<nat> {
    if log == [] then None
    else
      var rest := LatestTrainingStep(log[..|log| - 1]);
      var last := log[|log| - 1];
      if last.StepLine? then Larger(rest, last.step) else rest
  }

  /** `latest_checkpoint_step`: the greatest checkpoint any line announces. */
  function LatestCheckpointStep(log: Log): Option<nat> {
    if log == [] then None
    else
      var rest := LatestCheckpointStep(log[..|log| - 1]);
      var last := log[|log| - 1];
      if last.CheckpointLine? then Larger(rest, last.step) else rest
  }

  /** `resumed_checkpoint_step`: what the last resume line of `rank` says. */
  function ResumedCheckpointStep(log: Log, rank: nat): Option<nat> {
    if log == [] then None
    else
      var last := log[|log| - 1];
      if last.ResumeLine? && last.rank == rank then Some(last.step)
      else ResumedCheckpointStep(log[..|log| - 1], rank)
  }

  ghost predicate GreatestStep(log: Log, m: Option<nat>) {
    match m
    case None => forall k: nat :: StepLine(k) !in log
    case Some(n) => StepLine(n) in log && forall k: nat :: StepLine(k) in log ==> k <= n
  }

  ghost predicate GreatestCheckpoint(log: Log, m: Option<nat>) {
    match m
    case None => forall k: nat :: CheckpointLine(k) !in log
    case Some(n) => CheckpointLine(n) in log && forall k: nat :: CheckpointLine(k) in log ==> k <= n
  }

  /** The extractors return the maximum over all matching lines, wherever they stand. */
  lemma {:induction false} ExtractorsFindMaxima(log: Log)
    ensures GreatestStep(log, LatestTrainingStep(log))
    ensures GreatestCheckpoint(log, LatestCheckpointStep(log))
  {
    if log != [] {
      var rest, last := log[..|log| - 1], log[|log| - 1];
      ExtractorsFindMaxima(rest);
      assert log == rest + [last];
      assert forall l :: l in log <==> l in rest || l == last;
    }
  }

  lemma Append(log: Log, line: Line, rank: nat)
    ensures LatestTrainingStep(log + [line]) ==
      if line.StepLine? then Larger(LatestTrainingStep(log), line.step) else LatestTrainingStep(log)
    ensures LatestCheckpointStep(log + [line]) ==
      if line.CheckpointLine? then Larger(LatestCheckpointStep(log), line.step) else LatestCheckpointStep(log)
    ensures ResumedCheckpointStep(log + [line], rank) ==
      if line.ResumeLine? && line.rank == rank then Some(line.step) else ResumedCheckpointStep(log, rank)
  {
    assert (log + [line])[..|log|] == log;
  }
}
