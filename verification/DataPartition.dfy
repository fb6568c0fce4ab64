/** How the shuffled stream is dealt to ranks, and why no row is skipped or repeated across
    generations. */
module DataPartition {
  import opened Decimal
  import opened Workload
  import opened TrainingMachine
  import opened TrainingTheorems

  /** Where row `k` of the rows dealt to `rank` stands in the stream. */
  function Position(rank: nat, world: nat, k: nat): (p: nat)
    ensures p >= rank
  {
    if k == 0 then rank else Position(rank, world, k - 1) + world
  }

  lemma {:induction false} PositionIs(rank: nat, world: nat, k: nat)
    ensures Position(rank, world, k) == rank + k * world
  {
    if k > 0 {
      PositionIs(rank, world, k - 1);
      assert k * world == (k - 1) * world + world;
    }
  }

  /** The rows a rank still gets after its first `k`. */
  function Dealing<T>(dataset: seq<T>, rank: nat, world: nat, k: nat): seq<T>
    requires rank < world
    decreases |dataset| - Position(rank, world, k)
  {
    if Position(rank, world, k) >= |dataset| then []
    else [dataset[Position(rank, world, k)]] + Dealing(dataset, rank, world, k + 1)
  }

  /** Between two rows of a rank, the congruence test finds the second one and no other. */
  lemma Congruent(index: nat, rank: nat, world: nat, dealt: nat)
    requires rank < world
    requires index <= Position(rank, world, dealt)
    requires dealt > 0 ==> Position(rank, world, dealt - 1) < index
    ensures index % world == rank <==> index == Position(rank, world, dealt)
  {
    PositionIs(rank, world, dealt);
    if index == Position(rank, world, dealt) {
      QuotientIs(index, world, dealt, rank);
    } else if index % world == rank {
      var k := dealt - index / world;
      assert index == (index / world) * world + rank;
      assert k * world == rank + dealt * world - index;
      SmallMultiple(k, world);
      assert false;
    }
  }

  /** `rank_examples`: one pass over the stream, keeping every `world`-th row and skipping the rows
      already seen. The result is everything the generator would yield. */
  method RankExamples<T>(dataset: seq<T>, rank: nat, world: nat, alreadySeen: nat) returns (yielded: seq<T>)
    requires rank < world
    ensures yielded == Dealing(dataset, rank, world, alreadySeen)
  {
    yielded := [];
    var skipped := 0;
    var globalIndex := 0;
    ghost var dealt := 0;
    while globalIndex < |dataset|
      invariant 0 <= globalIndex <= |dataset|
      invariant globalIndex <= Position(rank, world, dealt)
      invariant dealt > 0 ==> Position(rank, world, dealt - 1) < globalIndex
      invariant skipped == if dealt < alreadySeen then dealt else alreadySeen
      invariant dealt < alreadySeen ==> yielded == []
      invariant dealt >= alreadySeen ==>
        Dealing(dataset, rank, world, alreadySeen) == yielded + Dealing(dataset, rank, world, dealt)
    {
      Congruent(globalIndex, rank, world, dealt);
      if globalIndex % world == rank {
        if skipped < alreadySeen {
          skipped := skipped + 1;
        } else {
          ghost var rest := Dealing(dataset, rank, world, dealt + 1);
          assert yielded + ([dataset[globalIndex]] + rest) == yielded + [dataset[globalIndex]] + rest;
          yielded := yielded + [dataset[globalIndex]];
        }
        dealt := dealt + 1;
      }
      globalIndex := globalIndex + 1;
    }
    if dealt < alreadySeen {
      DealtOut(dataset, rank, world, dealt, alreadySeen);
    }
  }

  lemma {:induction false} DealtOut<T>(dataset: seq<T>, rank: nat, world: nat, dealt: nat, k: nat)
    requires rank < world && dealt <= k && Position(rank, world, dealt) >= |dataset|
    ensures Position(rank, world, k) >= |dataset| && Dealing(dataset, rank, world, k) == []
    decreases k
  {
    if dealt < k {
      DealtOut(dataset, rank, world, dealt, k - 1);
    }
  }

  /** Row by row: the `j`-th row after cursor `k` stands at index `rank + (k + j) * world`, and none of
      the rank's rows is missing. */
  lemma DealtRows<T>(dataset: seq<T>, rank: nat, world: nat, k: nat, j: nat)
    requires rank < world
    ensures j < |Dealing(dataset, rank, world, k)| <==> rank + (k + j) * world < |dataset|
    ensures j < |Dealing(dataset, rank, world, k)| ==>
      Dealing(dataset, rank, world, k)[j] == dataset[rank + (k + j) * world]
  {
    PositionIs(rank, world, k + j);
    DealtAt(dataset, rank, world, k, j);
  }

  lemma {:induction false} DealtAt<T>(dataset: seq<T>, rank: nat, world: nat, k: nat, j: nat)
    requires rank < world
    ensures j < |Dealing(dataset, rank, world, k)| <==> Position(rank, world, k + j) < |dataset|
    ensures j < |Dealing(dataset, rank, world, k)| ==>
      Dealing(dataset, rank, world, k)[j] == dataset[Position(rank, world, k + j)]
    decreases j
  {
    if Position(rank, world, k) >= |dataset| {
      DealtOut(dataset, rank, world, k, k + j);
    } else if j > 0 {
      DealtAt(dataset, rank, world, k + 1, j - 1);
      assert k + 1 + (j - 1) == k + j;
    }
  }

  /** A generation that restarts at the saved cursor gets exactly the rows the last one had left. */
  lemma {:induction false} ResumedDealing<T>(dataset: seq<T>, rank: nat, world: nat, k: nat, taken: nat)
    requires rank < world && taken <= |Dealing(dataset, rank, world, k)|
    ensures Dealing(dataset, rank, world, k)[taken..] == Dealing(dataset, rank, world, k + taken)
    decreases taken
  {
    if taken > 0 {
      ResumedDealing(dataset, rank, world, k + 1, taken - 1);
      var rest := Dealing(dataset, rank, world, k + 1);
      assert Dealing(dataset, rank, world, k) == [dataset[Position(rank, world, k)]] + rest;
      assert Dealing(dataset, rank, world, k)[taken..] == rest[taken - 1..];
      assert k + 1 + (taken - 1) == k + taken;
    }
  }

  /** So as long as the stream lasts, the rows a step of the machine reads at cursor `k` are the next ones
      the generator yields. */
  lemma StepReadsDealtRows(w: Workload, dataset: seq<Row>, rank: nat, k: nat)
    requires Valid(w) && rank < w.world && forall i :: 0 <= i < |dataset| ==> dataset[i] == w.row(i)
    requires w.accumulation <= |Dealing(dataset, rank, w.world, k)|
    ensures Dealing(dataset, rank, w.world, k)[..w.accumulation] == StepRows(w, rank, k)
  {
    var rows := Dealing(dataset, rank, w.world, k);
    forall j | 0 <= j < w.accumulation
      ensures rows[j] == StepRows(w, rank, k)[j]
    {
      var i := rank + (k + j) * w.world;
      DealtRows(dataset, rank, w.world, k, j);
      assert rows[j] == dataset[i] == w.row(i) == DealtRow(w, rank, k + j);
    }
  }

  /** The indices of the rows that rank `rank` trains on in step `step`. */
  ghost function Consumed(w: Workload, rank: nat, step: nat): set<nat>
    requires step >= 1
  {
    set j: nat | j < w.accumulation :: RowIndex(w, rank, step, j)
  }

  function RowIndex(w: Workload, rank: nat, step: nat, j: nat): nat
    requires step >= 1
  {
    rank + ((step - 1) * w.accumulation + j) * w.world
  }

  /** In every generation of every run, a rank about to start a step stands at the cursor of that step,
      and what it sends and keeps is the accumulation over the rows dealt to it for that step. */
  lemma ComputeReadsConsumed(w: Workload, actions: seq<Action>, s: State, r: nat, rows: seq<Row>)
    requires Reached(w, actions, s) && Enabled(w, s, Compute(r)) && |rows| == w.accumulation
    requires forall j: nat :: j < w.accumulation ==>
      rows[j] == w.row(r + (s.ranks[r].step * w.accumulation + j) * w.world)
    ensures forall j: nat :: j < w.accumulation ==>
      StepRows(w, r, s.ranks[r].examples)[j] == w.row(RowIndex(w, r, s.ranks[r].step + 1, j)) == rows[j] &&
      RowIndex(w, r, s.ranks[r].step + 1, j) in Consumed(w, r, s.ranks[r].step + 1)
    ensures var t, call := Apply(w, s, Compute(r)), s.ranks[r].entered;
      var local := w.accumulate(s.ranks[r].model, s.ranks[r].rng, rows);
      (call, r) in t.net && t.net[(call, r)] == GradMessage(local.grad) &&
      t.ranks[r].rng == local.rng && t.ranks[r].localTokens == local.tokens &&
      t.ranks[r].step == s.ranks[r].step + 1
  {
    CrashResumeRefinement(w, actions, s, r);
    RowsOfStep(w, r, s.ranks[r].step, s.ranks[r].examples, rows);
    ComputeSends(w, s, r, rows);
  }

  lemma ComputeSends(w: Workload, s: State, r: nat, rows: seq<Row>)
    requires Valid(w) && Sized(w, s) && Enabled(w, s, Compute(r)) && rows == StepRows(w, r, s.ranks[r].examples)
    ensures var t, rank := Apply(w, s, Compute(r)), s.ranks[r];
      var local := w.accumulate(rank.model, rank.rng, rows);
      (rank.entered, r) in t.net && t.net[(rank.entered, r)] == GradMessage(local.grad) &&
      t.ranks[r].rng == local.rng && t.ranks[r].localTokens == local.tokens && t.ranks[r].step == rank.step + 1
  {
  }

  lemma RowsOfStep(w: Workload, r: nat, step: nat, examples: nat, rows: seq<Row>)
    requires examples == step * w.accumulation && |rows| == w.accumulation
    requires forall j: nat :: j < w.accumulation ==> rows[j] == w.row(r + (step * w.accumulation + j) * w.world)
    ensures StepRows(w, r, examples) == rows
    ensures forall j: nat :: j < w.accumulation ==>
      StepRows(w, r, examples)[j] == w.row(RowIndex(w, r, step + 1, j)) == rows[j] &&
      RowIndex(w, r, step + 1, j) in Consumed(w, r, step + 1)
  {
    forall j: nat | j < w.accumulation
      ensures StepRows(w, r, examples)[j] == rows[j] == w.row(RowIndex(w, r, step + 1, j))
    {
      assert (step + 1 - 1) * w.accumulation == examples;
      assert rows[j] == DealtRow(w, r, examples + j);
    }
  }

  lemma MixedRadixUnique(d: nat, r: nat, c: nat, r': nat, c': nat)
    requires r < d && r' < d && r + c * d == r' + c' * d
    ensures r == r' && c == c'
  {
    assert (c - c') * d == r' - r;
    SmallMultiple(c - c', d);
  }

  lemma RowIndexUnique(w: Workload, rank: nat, step: nat, j: nat, rank': nat, step': nat, j': nat)
    requires rank < w.world && rank' < w.world && step >= 1 && step' >= 1
    requires j < w.accumulation && j' < w.accumulation
    requires RowIndex(w, rank, step, j) == RowIndex(w, rank', step', j')
    ensures rank == rank' && step == step' && j == j'
  {
    MixedRadixUnique(w.world, rank, (step - 1) * w.accumulation + j, rank', (step' - 1) * w.accumulation + j');
    MixedRadixUnique(w.accumulation, j, step - 1, j', step' - 1);
  }

  /** No row is repeated: different ranks or different steps never share a row. */
  lemma NothingRepeated(w: Workload, rank: nat, step: nat, rank': nat, step': nat)
    requires rank < w.world && rank' < w.world && step >= 1 && step' >= 1
    requires rank != rank' || step != step'
    ensures Consumed(w, rank, step) !! Consumed(w, rank', step')
  {
    forall i | i in Consumed(w, rank, step) && i in Consumed(w, rank', step')
      ensures false
    {
      var j: nat :| j < w.accumulation && i == RowIndex(w, rank, step, j);
      var j': nat :| j' < w.accumulation && i == RowIndex(w, rank', step', j');
      RowIndexUnique(w, rank, step, j, rank', step', j');
    }
  }

  /** No row is skipped and none is taken too early: the rows of the first `steps` steps of all ranks
      are exactly the first `steps * accumulation * world` rows of the stream. */
  lemma NothingSkipped(w: Workload, steps: nat, i: nat)
    requires Valid(w)
    ensures i < steps * w.accumulation * w.world <==>
      exists rank: nat, step: nat :: rank < w.world && 1 <= step <= steps && i in Consumed(w, rank, step)
  {
    if i < steps * w.accumulation * w.world {
      var rank, step := ConsumerOf(w, steps, i);
    }
    forall rank: nat, step: nat | rank < w.world && 1 <= step <= steps && i in Consumed(w, rank, step)
      ensures i < steps * w.accumulation * w.world
    {
      var j: nat :| j < w.accumulation && i == RowIndex(w, rank, step, j);
      ConsumedInTime(w, steps, rank, step, j);
    }
  }

  lemma ConsumedInTime(w: Workload, steps: nat, rank: nat, step: nat, j: nat)
    requires rank < w.world && 1 <= step <= steps && j < w.accumulation
    ensures RowIndex(w, rank, step, j) < steps * w.accumulation * w.world
  {
    var c := (step - 1) * w.accumulation + j;
    assert c + 1 <= step * w.accumulation;
    assert step * w.accumulation <= steps * w.accumulation;
    Scale(c + 1, steps * w.accumulation, w.world);
  }

  lemma Scale(a: nat, b: nat, d: nat)
    requires a <= b
    ensures a * d <= b * d
  {
  }

  lemma ConsumerOf(w: Workload, steps: nat, i: nat) returns (rank: nat, step: nat)
    requires Valid(w) && i < steps * w.accumulation * w.world
    ensures rank < w.world && 1 <= step <= steps && i in Consumed(w, rank, step)
  {
    var c: nat;
    c, rank := Split(i, steps * w.accumulation, w.world);
    assert w.accumulation > 0;
    var s: nat, j: nat;
    s, j := Split(c, steps, w.accumulation);
    step := s + 1;
    assert i == RowIndex(w, rank, step, j);
  }

  lemma Split(i: nat, bound: nat, d: nat) returns (q: nat, r: nat)
    requires d >= 1 && i < bound * d
    ensures i == r + q * d && r < d && q < bound
  {
    q, r := i / d, i % d;
    assert i == q * d + r;
    BelowProduct(q, bound, d);
  }
}
