/** The SmolLM workload of one run, with the numerical work left uninterpreted, and the run that never
    crashes. Everything a checkpoint must preserve is a function of how many optimizer steps are done. */
module Workload {

  /** The adapter, optimizer, scheduler and gradient scaler held by one rank. */
  type Model(!new)

  /** The Python, Torch and CUDA generator states of one rank. */
  type Rng(!new)

  type Grad(!new)

  type Row(!new)

  /** What one rank's gradient-accumulation loop produces: the accumulated gradient, the number of
      tokens it saw, and the generator state it leaves behind. */
  datatype Local = Local(grad: Grad, tokens: nat, rng: Rng)

  /** The fixed arguments of a run. `row` is the shuffled training stream; a stream that ends early
      makes a rank raise, which the machine covers by letting any rank die at any moment. */
  datatype Workload = Workload(
    world: nat,
    accumulation: nat,
    every: nat,
    maxSteps: nat,
    row: nat -> Row,
    initial: Model,
    seeded: nat -> Rng,
    accumulate: (Model, Rng, seq<Row>) -> Local,
    reduce: seq<Grad> -> Grad,
    update: (Model, Grad) -> Model
  )

  /** The state of the whole rank group between two steps. */
  datatype Snapshot = Snapshot(model: Model, rngs: seq<Rng>, tokens: nat, examples: nat)

  /** A group has at least one rank, and `step % checkpoint_every` must not divide by zero. */
  predicate Valid(w: Workload) {
    w.world >= 1 && w.every >= 1
  }

  /** Row `k` of the rows dealt to `rank`. */
  function DealtRow(w: Workload, rank: nat, k: nat): Row {
    w.row(rank + k * w.world)
  }

  /** The rows one rank consumes in a step that starts after `examples` rows. */
  function StepRows(w: Workload, rank: nat, examples: nat): seq<Row> {
    seq(w.accumulation, (j: nat) => DealtRow(w, rank, examples + j))
  }

  function LocalStep(w: Workload, s: Snapshot, rank: nat): Local
    requires rank < |s.rngs|
  {
    w.accumulate(s.model, s.rngs[rank], StepRows(w, rank, s.examples))
  }

  function Sum(xs: seq<nat>): nat {
    if xs == [] then 0 else Sum(xs[..|xs| - 1]) + xs[|xs| - 1]
  }

  /** The two laws that say what `Sum` is. */
  lemma {:induction false} SumOfParts(xs: seq<nat>, ys: seq<nat>)
    ensures Sum(xs + ys) == Sum(xs) + Sum(ys)
    decreases |ys|
  {
    if ys == [] {
      assert xs + ys == xs;
    } else {
      var front, last := ys[..|ys| - 1], ys[|ys| - 1];
      SumOfParts(xs, front);
      assert (xs + ys)[..|xs + ys| - 1] == xs + front;
    }
  }

  lemma SumOfOne(x: nat)
    ensures Sum([x]) == x
  {
    assert [x][..0] == [];
  }

  /** Adding one number after the other ends with the sum. */
  lemma {:induction false} RunningTotal(xs: seq<nat>, totals: seq<nat>)
    requires |totals| == |xs| + 1 && totals[0] == 0
    requires forall i :: 0 <= i < |xs| ==> totals[i + 1] == totals[i] + xs[i]
    ensures totals[|xs|] == Sum(xs)
    decreases |xs|
  {
    if xs != [] {
      var last := |xs| - 1;
      RunningTotal(xs[..last], totals[..|xs|]);
    }
  }

  /** One synchronized optimizer step of the whole group. */
  function Advance(w: Workload, s: Snapshot): (t: Snapshot)
    requires |s.rngs| == w.world
    ensures |t.rngs| == w.world
  {
    Snapshot(
      w.update(s.model, w.reduce(seq(w.world, (r: nat) requires r < w.world => LocalStep(w, s, r).grad))),
      seq(w.world, (r: nat) requires r < w.world => LocalStep(w, s, r).rng),
      s.tokens + Sum(seq(w.world, (r: nat) requires r < w.world => LocalStep(w, s, r).tokens)),
      s.examples + w.accumulation)
  }

  /** The group after `k` steps of a run in which nothing ever fails. */
  function Reference(w: Workload, k: nat): (s: Snapshot)
    ensures |s.rngs| == w.world
  {
    if k == 0 then Snapshot(w.initial, seq(w.world, (r: nat) => w.seeded(r)), 0, 0)
    else Advance(w, Reference(w, k - 1))
  }

  /** What rank `rank` computes during step `k` of the reference run. */
  function LocalAt(w: Workload, k: nat, rank: nat): Local
    requires k >= 1 && rank < w.world
  {
    LocalStep(w, Reference(w, k - 1), rank)
  }

  /** The saved cursor counts whole steps, so rank 0's copy is right for every rank. */
  lemma {:induction false} ExamplesCountSteps(w: Workload, k: nat)
    ensures Reference(w, k).examples == k * w.accumulation
  {
    if k > 0 {
      ExamplesCountSteps(w, k - 1);
    }
  }
}
