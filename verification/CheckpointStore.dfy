/** The checkpoint directory as a map from names to contents, changed by single file-system steps. */
module CheckpointStore {
  import opened Options
  import opened CheckpointNames
  import opened Decimal
  import opened Workload

  datatype Payload = Payload(step: nat, snapshot: Snapshot)

  /** `Torn` is a file not completely written; `Unsynced` one that a crash may still tear. */
  datatype Content = Torn | Unsynced(payload: Payload) | Synced(payload: Payload)

  type Directory = map<FileName, Content>

  datatype Fault = NoFault | CreateFails | WriteFails | SyncFails | ReplaceFails

  ghost function StepFiles(dir: Directory): set<nat> {
    set f | f in dir && f.StepFile? :: f.step
  }

  /** `m` is what `sorted(names)[-1]` picks among the step files of `steps`. */
  ghost predicate LastByName(steps: set<nat>, m: nat) {
    m in steps && forall n :: n in steps && n != m ==> NameBefore(n, m)
  }

  lemma {:induction false} LastByNameExists(steps: set<nat>)
    requires steps != {}
    ensures exists m :: LastByName(steps, m)
  {
    var n :| n in steps;
    var rest := steps - {n};
    if rest == {} {
      assert steps == {n};
      assert LastByName(steps, n);
    } else {
      LastByNameExists(rest);
      var m :| LastByName(rest, m);
      NamesDiffer(n, m);
      BeforeIsStrict(Text(StepFile(n)), Text(StepFile(m)));
      if NameBefore(n, m) {
        assert LastByName(steps, m);
      } else {
        forall k | k in steps && k != n
          ensures NameBefore(k, n)
        {
          if k != m {
            assert k in rest;
            BeforeIsTransitive(Text(StepFile(k)), Text(StepFile(m)), Text(StepFile(n)));
          }
        }
        assert LastByName(steps, n);
      }
    }
  }

  ghost function PickLast(steps: set<nat>): (m: nat)
    requires steps != {}
    ensures LastByName(steps, m)
  {
    LastByNameExists(steps);
    var m :| LastByName(steps, m);
    m
  }

  /** Adding a step file can only make that file the last one. */
  lemma LastAfterAdding(steps: set<nat>, k: nat)
    requires steps != {}
    ensures PickLast(steps + {k}) in {PickLast(steps), k}
  {
    var m, n := PickLast(steps), PickLast(steps + {k});
    if n != k && n != m {
      assert n in steps;
      BeforeIsStrict(Text(StepFile(m)), Text(StepFile(n)));
      assert false;
    }
  }

  /** `latest_checkpoint`: `latest.pt` if it exists, else the step file whose name sorts last. */
  ghost function LatestCheckpoint(dir: Directory): (file: Option<FileName>)
    ensures file.Some? ==> file.value in dir && !file.value.Temp?
  {
    if Latest in dir then Some(Latest)
    else if StepFiles(dir) == {} then None
    else Some(StepFile(PickLast(StepFiles(dir))))
  }

  /** The payload of a file that `torch.load` can read. */
  function Readable(dir: Directory, file: FileName): Option<Payload> {
    if file in dir && !dir[file].Torn? then Some(dir[file].payload) else None
  }

  /** The step a rank group that starts on `dir` resumes from. */
  ghost function ResumeStep(dir: Directory): nat {
    match LatestCheckpoint(dir)
    case None => 0
    case Some(file) => if Readable(dir, file).Some? then Readable(dir, file).value.step else 0
  }

  ghost predicate InNameOrder(steps: set<nat>) {
    forall a, b :: a in steps && b in steps && a < b ==> NameBefore(a, b)
  }

  /** When names sort as steps do, the fallback picks the greatest step. */
  lemma FallbackPicksGreatest(dir: Directory, n: nat)
    requires Latest !in dir && n in StepFiles(dir)
    requires InNameOrder(StepFiles(dir))
    ensures LatestCheckpoint(dir).Some? && LatestCheckpoint(dir).value.StepFile?
    ensures LatestCheckpoint(dir).value.step in StepFiles(dir)
    ensures n <= LatestCheckpoint(dir).value.step
  {
    var m := LatestCheckpoint(dir).value.step;
    assert LastByName(StepFiles(dir), m);
    if m < n {
      BeforeIsStrict(Text(StepFile(m)), Text(StepFile(n)));
    }
  }

  /** With six-digit steps the fallback always picks the greatest one, whatever files are there. */
  lemma SixDigitFallbackPicksGreatest(dir: Directory, n: nat)
    requires Latest !in dir && n in StepFiles(dir)
    requires forall k :: k in StepFiles(dir) ==> k < 1_000_000
    ensures LatestCheckpoint(dir).Some? && LatestCheckpoint(dir).value.StepFile?
    ensures n <= LatestCheckpoint(dir).value.step
  {
    forall a, b | a in StepFiles(dir) && b in StepFiles(dir) && a < b
      ensures NameBefore(a, b)
    {
      NameOrderIsStepOrder(a, b);
    }
    FallbackPicksGreatest(dir, n);
  }

  /** The step `n` does not exceed the numeral of `m` cut to the width of `n`'s numeral. */
  predicate FitsUnder(n: nat, m: nat) {
    |Padded(n)| <= |Padded(m)| && n <= m / Pow10(|Padded(m)| - |Padded(n)|)
  }

  /** Exactly when the fallback finds the newest of any set of step files. */
  lemma FallbackExactly(dir: Directory, m: nat)
    requires Latest !in dir && m in StepFiles(dir) && forall n :: n in StepFiles(dir) ==> n <= m
    ensures LatestCheckpoint(dir) == Some(StepFile(m)) <==>
      forall n :: n in StepFiles(dir) && n < m ==> FitsUnder(n, m)
  {
    var steps, last := StepFiles(dir), PickLast(StepFiles(dir));
    forall n | n in steps && n < m
      ensures NameBefore(n, m) <==> FitsUnder(n, m)
    {
      NameOrderExactly(n, m);
    }
    if last != m {
      BeforeIsStrict(Text(StepFile(last)), Text(StepFile(m)));
      assert !FitsUnder(last, m);
    }
  }

  function WithoutTemps(dir: Directory): Directory {
    map f | f in dir && !f.Temp? :: dir[f]
  }

  /** What a crash may leave of `dir`: any unsynced file can turn out torn. */
  function AfterCrash(dir: Directory, torn: set<FileName>): Directory {
    map f | f in dir :: if f in torn && dir[f].Unsynced? then Torn else dir[f]
  }

  /** A crash removes no file, and makes a file unreadable exactly if it was not synced and comes out torn. */
  lemma CrashTearsExactly(dir: Directory, torn: set<FileName>, f: FileName)
    requires f in dir && !dir[f].Torn?
    ensures AfterCrash(dir, torn).Keys == dir.Keys
    ensures Readable(AfterCrash(dir, torn), f) ==
      if f in torn && dir[f].Unsynced? then None else Some(dir[f].payload)
  {
  }

  /** The search only sees published files. */
  lemma TempsAreInvisible(dir: Directory, dir': Directory)
    requires WithoutTemps(dir) == WithoutTemps(dir')
    ensures LatestCheckpoint(dir) == LatestCheckpoint(dir') && ResumeStep(dir) == ResumeStep(dir')
    ensures Latest in dir <==> Latest in dir'
    ensures forall f :: f in dir && !f.Temp? ==> f in dir' && dir'[f] == dir[f]
  {
    forall f: FileName | !f.Temp?
      ensures f in dir <==> f in dir'
      ensures f in dir ==> dir[f] == dir'[f]
    {
      assert f in dir <==> f in WithoutTemps(dir);
      assert f in dir' <==> f in WithoutTemps(dir');
    }
    assert StepFiles(dir) == StepFiles(dir');
  }

  lemma TempWritesAreInvisible(dir: Directory, target: FileName, random: string, content: Content)
    ensures WithoutTemps(dir[Temp(target, random) := content]) == WithoutTemps(dir)
    ensures WithoutTemps(dir - {Temp(target, random)}) == WithoutTemps(dir)
  {
  }

  /** The directory the training job writes its checkpoints to. `seen` collects the published
      directories that a crash at some moment so far would have left behind. */
  class CheckpointDirectory {
    var files: Directory
    ghost var seen: set<Directory>

    constructor ()
      ensures files == map[] && seen == {}
    {
      files := map[];
      seen := {};
    }

    /** One file-system call. */
    method Change(next: Directory)
      modifies this
      ensures files == next && seen == old(seen) + {WithoutTemps(next)}
    {
      files := next;
      seen := seen + {WithoutTemps(next)};
    }

    /** `atomic_torch_save`. `random` is the fresh name `NamedTemporaryFile` picks, `fault` the call
        that raises, if any. */
    method AtomicTorchSave(payload: Payload, destination: FileName, random: string, fault: Fault)
        returns (saved: bool)
      requires !destination.Temp? && Temp(destination, random) !in files
      modifies this
      ensures saved == fault.NoFault?
      ensures files == if saved then old(files)[destination := Synced(payload)] else old(files)
      ensures seen <= old(seen) + {WithoutTemps(old(files)), WithoutTemps(files)}
    {
      var before := files;
      var temporary := Temp(destination, random);
      TempWritesAreInvisible(before, destination, random, Torn);
      if fault.CreateFails? {
        return false;
      }
      Change(before[temporary := Torn]);
      if !fault.WriteFails? {
        TempWritesAreInvisible(before, destination, random, Unsynced(payload));
        Change(before[temporary := Unsynced(payload)]);
        if !fault.SyncFails? {
          TempWritesAreInvisible(before, destination, random, Synced(payload));
          Change(before[temporary := Synced(payload)]);
          if !fault.ReplaceFails? {
            Change(files[destination := files[temporary]] - {temporary});
            assert files == before[destination := Synced(payload)];
          }
        }
      }
      Change(files - {temporary});
      assert files == if fault.NoFault? then before[destination := Synced(payload)] else before;
      saved := fault.NoFault?;
    }

    /** `save_checkpoint`: first the numbered file, then `latest.pt`. At every moment a crash would
        leave the published files as they were, or with the numbered file, or with both. */
    method SaveCheckpoint(payload: Payload, random1: string, fault1: Fault, random2: string, fault2: Fault)
        returns (saved: bool)
      requires Temp(StepFile(payload.step), random1) !in files && Temp(Latest, random2) !in files
      modifies this
      ensures saved == (fault1.NoFault? && fault2.NoFault?)
      ensures files ==
        if !fault1.NoFault? then old(files)
        else if !fault2.NoFault? then old(files)[StepFile(payload.step) := Synced(payload)]
        else old(files)[StepFile(payload.step) := Synced(payload)][Latest := Synced(payload)]
      ensures seen <= old(seen) + {
          WithoutTemps(old(files)),
          WithoutTemps(old(files)[StepFile(payload.step) := Synced(payload)]),
          WithoutTemps(old(files)[StepFile(payload.step) := Synced(payload)][Latest := Synced(payload)]) }
    {
      saved := AtomicTorchSave(payload, StepFile(payload.step), random1, fault1);
      if saved {
        saved := AtomicTorchSave(payload, Latest, random2, fault2);
      }
    }
  }
}
