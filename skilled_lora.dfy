/** SkilledLoRA: a LoRA whose factors come in `nSkills` alternatives per block, the
    input and output features being cut into `nSplits` blocks. Each example of a batch
    is routed on its own, either by a skill index or by a mixture over skills. */
module Skilled {
  import opened Wrappers
  import opened Matrices
  import opened Adapters
  import Arith

  /** A factor tensor: `nSplits` x `nSkills` blocks, each a matrix. */
  type Factor = seq<seq<Matrix>>

  predicate IsFactor(t: Factor, splits: nat, skills: nat, rows: nat, cols: nat) {
    |t| == splits &&
    forall q :: 0 <= q < splits ==>
      (|t[q]| == skills && forall s :: 0 <= s < skills ==> IsMatrix(t[q][s], rows, cols))
  }

  /** The routing weights of one forward call: a 1-D tensor of skill indices, one per
      example, or a 3-D tensor of per-example, per-split mixtures over skills. */
  datatype Routing = Indices(idx: seq<int>) | Mixture(w: seq<seq<seq<real>>>)

  /** Python-style index into `n` skills: negative indices count from the end. */
  function SkillIndex(k: int, n: nat): (s: nat)
    requires -(n as int) <= k < n
    ensures s < n
    ensures k >= 0 ==> s == k
  {
    if k < 0 then k + n else k
  }

  /** The routing fits a batch of `bs` examples: every index is in range, or every
      mixture is `splits` x `skills`. Otherwise the gather, einsum or reshape raises. */
  predicate RoutingFits(routing: Routing, bs: nat, splits: nat, skills: nat) {
    match routing
    case Indices(idx) =>
      |idx| == bs && forall b :: 0 <= b < bs ==> -(skills as int) <= idx[b] < skills
    case Mixture(w) =>
      |w| == bs && forall b :: 0 <= b < bs ==>
        (|w[b]| == splits && forall q :: 0 <= q < splits ==> |w[b][q]| == skills)
  }

  /** The per-split blocks example `b` uses. */
  function ExampleBlocks(t: Factor, routing: Routing, b: nat, splits: nat, skills: nat, rows: nat, cols: nat)
    : (blocks: seq<Matrix>)
    requires IsFactor(t, splits, skills, rows, cols)
    requires b < (if routing.Indices? then |routing.idx| else |routing.w|)
    requires RoutingFits(routing, if routing.Indices? then |routing.idx| else |routing.w|, splits, skills)
    ensures |blocks| == splits && forall q :: 0 <= q < splits ==> IsMatrix(blocks[q], rows, cols)
    ensures routing.Indices? ==>
      forall q :: 0 <= q < splits ==> blocks[q] == t[q][SkillIndex(routing.idx[b], skills)]
  {
    match routing
    case Indices(idx) =>
      var k := SkillIndex(idx[b], skills);
      assert forall q :: 0 <= q < splits ==> IsMatrix(t[q][k], rows, cols);
      seq(splits, q requires 0 <= q < splits => t[q][k])
    case Mixture(w) =>
      seq(splits, q requires 0 <= q < splits => WeightedSum(w[b][q], t[q], rows, cols))
  }

  function Concat(vs: seq<Vector>, width: nat): (v: Vector)
    requires forall q :: 0 <= q < |vs| ==> |vs[q]| == width
    ensures |v| == |vs| * width
  {
    if |vs| == 0 then [] else vs[0] + Concat(vs[1..], width)
  }

  /** The blocks one above the other: `splits*rows` x `cols` (the A side). */
  function StackRows(blocks: seq<Matrix>, rows: nat, cols: nat): (m: Matrix)
    requires forall q :: 0 <= q < |blocks| ==> IsMatrix(blocks[q], rows, cols)
    ensures IsMatrix(m, |blocks| * rows, cols)
  {
    if |blocks| == 0 then []
    else
      assert IsMatrix(blocks[0], rows, cols);
      var rest := StackRows(blocks[1..], rows, cols);
      assert |blocks| * rows == rows + (|blocks| - 1) * rows;
      blocks[0] + rest
  }

  /** The blocks side by side: `rows` x `splits*cols` (the B side). */
  function StackCols(blocks: seq<Matrix>, rows: nat, cols: nat): (m: Matrix)
    requires forall q :: 0 <= q < |blocks| ==> IsMatrix(blocks[q], rows, cols)
    ensures IsMatrix(m, rows, |blocks| * cols)
  {
    seq(rows, k requires 0 <= k < rows => Concat(RowAcross(blocks, rows, cols, k), cols))
  }

  /** Row `k` of every block. */
  function RowAcross(blocks: seq<Matrix>, rows: nat, cols: nat, k: nat): (vs: seq<Vector>)
    requires forall q :: 0 <= q < |blocks| ==> IsMatrix(blocks[q], rows, cols)
    requires k < rows
    ensures |vs| == |blocks|
    ensures forall q :: 0 <= q < |blocks| ==> IsMatrix(blocks[q], rows, cols) && vs[q] == blocks[q][k] && |vs[q]| == cols
  {
    seq(|blocks|, q requires 0 <= q < |blocks| =>
      assert IsMatrix(blocks[q], rows, cols);
      blocks[q][k])
  }

  /** The exception a SkilledLoRA forward raises, if any: routing weights that do not
      fit the batch, or a width that is not a multiple of the split count, which only
      the reshapes of a non-empty batch notice (reshaping zero elements always works). */
  predicate ForwardFails(inF: nat, outF: nat, splits: nat, skills: nat, routing: Routing, bs: nat)
    requires splits > 0
  {
    (bs > 0 && (inF % splits != 0 || outF % splits != 0)) || !RoutingFits(routing, bs, splits, skills)
  }

  /** One example's output: the base layer plus the low-rank correction whose A stacks
      the example's per-split A blocks and whose B lays its B blocks side by side. */
  function ExampleOutput(layer: Layer, xe: Matrix, aBlocks: seq<Matrix>, bBlocks: seq<Matrix>,
                         splits: nat, rank: nat, scaling: real, useWarmup: bool, steps: nat): (y: Matrix)
    requires layer.Linear? && WellFormed(layer) && splits > 0
    requires layer.inFeatures % splits == 0 && layer.outFeatures % splits == 0
    requires forall i :: 0 <= i < |xe| ==> |xe[i]| == layer.inFeatures
    requires |aBlocks| == splits && forall q :: 0 <= q < splits ==> IsMatrix(aBlocks[q], layer.inFeatures / splits, rank)
    requires |bBlocks| == splits && forall q :: 0 <= q < splits ==> IsMatrix(bBlocks[q], rank, layer.outFeatures / splits)
    ensures IsMatrix(y, |xe|, layer.outFeatures)
  {
    var d := layer.inFeatures / splits;
    var o := layer.outFeatures / splits;
    Arith.DivExact(layer.inFeatures, splits);
    Arith.DivExact(layer.outFeatures, splits);
    var ae := StackRows(aBlocks, d, rank);
    var be := StackCols(bBlocks, rank, o);
    Add(BaseOutput(layer, xe), Correction(xe, ae, be, rank, layer.outFeatures, scaling, useWarmup, steps))
  }

  /** What `SkilledLoRA.forward_linear_` returns for a batch `x` (one matrix of rows per
      example): a shape error, or per example the output built from that example's own
      routing entry and nothing else. */
  function SkilledOutput(layer: Layer, x: seq<Matrix>, routing: Routing, a: Factor, b: Factor,
                         splits: nat, skills: nat, rank: nat, scaling: real, useWarmup: bool,
                         steps: nat): (r: Result<seq<Matrix>, AdapterError>)
    requires layer.Linear? && WellFormed(layer) && splits > 0
    requires forall e :: 0 <= e < |x| ==> forall i :: 0 <= i < |x[e]| ==> |x[e][i]| == layer.inFeatures
    requires IsFactor(a, splits, skills, layer.inFeatures / splits, rank)
    requires IsFactor(b, splits, skills, rank, layer.outFeatures / splits)
    ensures r.Failure? <==> ForwardFails(layer.inFeatures, layer.outFeatures, splits, skills, routing, |x|)
    ensures r.Failure? ==> r.error == ShapeMismatch
    ensures r.Success? ==> |r.value| == |x|
    ensures r.Success? ==> forall e :: 0 <= e < |x| ==>
      (IsMatrix(r.value[e], |x[e]|, layer.outFeatures) &&
       r.value[e] == ExampleOutput(layer, x[e],
         ExampleBlocks(a, routing, e, splits, skills, layer.inFeatures / splits, rank),
         ExampleBlocks(b, routing, e, splits, skills, rank, layer.outFeatures / splits),
         splits, rank, scaling, useWarmup, steps))
  {
    if ForwardFails(layer.inFeatures, layer.outFeatures, splits, skills, routing, |x|) then Failure(ShapeMismatch)
    else
      var d := layer.inFeatures / splits;
      var o := layer.outFeatures / splits;
      Success(seq(|x|, e requires 0 <= e < |x| =>
        ExampleOutput(layer, x[e], ExampleBlocks(a, routing, e, splits, skills, d, rank),
                      ExampleBlocks(b, routing, e, splits, skills, rank, o),
                      splits, rank, scaling, useWarmup, steps)))
  }

  /** An empty batch comes back empty, whatever the widths. */
  lemma EmptyBatchPassesThrough(layer: Layer, a: Factor, b: Factor, splits: nat, skills: nat, rank: nat,
                                scaling: real, useWarmup: bool, steps: nat)
    requires layer.Linear? && WellFormed(layer) && splits > 0
    requires IsFactor(a, splits, skills, layer.inFeatures / splits, rank)
    requires IsFactor(b, splits, skills, rank, layer.outFeatures / splits)
    ensures SkilledOutput(layer, [], Indices([]), a, b, splits, skills, rank, scaling, useWarmup, steps) == Success([])
  {
  }

  /** The mixture that puts all of example `e`'s weight, in every split, on the skill
      its index names. */
  function OneHotRouting(idx: seq<int>, splits: nat, skills: nat): (w: seq<seq<seq<real>>>)
    requires forall e :: 0 <= e < |idx| ==> -(skills as int) <= idx[e] < skills
    ensures RoutingFits(Mixture(w), |idx|, splits, skills)
    ensures forall e, q :: 0 <= e < |idx| && 0 <= q < splits ==>
      w[e][q] == OneHot(skills, SkillIndex(idx[e], skills))
  {
    seq(|idx|, e requires 0 <= e < |idx| =>
      seq(splits, q => OneHot(skills, SkillIndex(idx[e], skills))))
  }

  /** Under the one-hot mixture an example mixes exactly the blocks its index gathers. */
  lemma OneHotBlocks(t: Factor, idx: seq<int>, e: nat, splits: nat, skills: nat, rows: nat, cols: nat)
    requires IsFactor(t, splits, skills, rows, cols)
    requires e < |idx| && forall k :: 0 <= k < |idx| ==> -(skills as int) <= idx[k] < skills
    ensures ExampleBlocks(t, Mixture(OneHotRouting(idx, splits, skills)), e, splits, skills, rows, cols)
         == ExampleBlocks(t, Indices(idx), e, splits, skills, rows, cols)
  {
    var k := SkillIndex(idx[e], skills);
    var mixed := ExampleBlocks(t, Mixture(OneHotRouting(idx, splits, skills)), e, splits, skills, rows, cols);
    forall q | 0 <= q < splits
      ensures mixed[q] == t[q][k]
    {
      WeightedSumOneHot(skills, k, t[q], rows, cols);
    }
  }

  /** Index routing and the one-hot mixture over the same skills produce the same
      output: gathering factors by index is the degenerate case of mixing them. */
  lemma IndexRoutingIsOneHotMixture(layer: Layer, x: seq<Matrix>, idx: seq<int>, a: Factor, b: Factor,
                                    splits: nat, skills: nat, rank: nat, scaling: real,
                                    useWarmup: bool, steps: nat)
    requires layer.Linear? && WellFormed(layer) && splits > 0
    requires forall e :: 0 <= e < |x| ==> forall i :: 0 <= i < |x[e]| ==> |x[e][i]| == layer.inFeatures
    requires IsFactor(a, splits, skills, layer.inFeatures / splits, rank)
    requires IsFactor(b, splits, skills, rank, layer.outFeatures / splits)
    requires |idx| == |x| && forall e :: 0 <= e < |idx| ==> -(skills as int) <= idx[e] < skills
    ensures SkilledOutput(layer, x, Indices(idx), a, b, splits, skills, rank, scaling, useWarmup, steps)
         == SkilledOutput(layer, x, Mixture(OneHotRouting(idx, splits, skills)), a, b, splits, skills, rank, scaling, useWarmup, steps)
  {
    var w := OneHotRouting(idx, splits, skills);
    var byIndex := SkilledOutput(layer, x, Indices(idx), a, b, splits, skills, rank, scaling, useWarmup, steps);
    var byMixture := SkilledOutput(layer, x, Mixture(w), a, b, splits, skills, rank, scaling, useWarmup, steps);
    if byIndex.Success? {
      forall e | 0 <= e < |x|
        ensures byIndex.value[e] == byMixture.value[e]
      {
        OneHotBlocks(a, idx, e, splits, skills, layer.inFeatures / splits, rank);
        OneHotBlocks(b, idx, e, splits, skills, rank, layer.outFeatures / splits);
      }
      assert byIndex.value == byMixture.value;
    } else {
      assert byMixture.Failure?;
    }
  }

  /** The SkilledLoRA hyper-parameters: LoRA's plus the split and skill counts. */
  datatype SkilledConfig = SkilledConfig(lora: LoRAConfig, nSplits: nat, nSkills: nat)

  /** The first exception `SkilledLoRA.__init__` raises, if any: LoRA's checks up to
      the kind of layer, then the integer division of the feature counts by `nSplits`
      in its own `create_for_layer`, then the inherited `reset_parameters`. */
  function SkilledAttachError(config: SkilledConfig, layer: Layer): (e: Option<AdapterError>)
    ensures e.None? <==> layer.Linear? && config.lora.rank > 0 && config.nSplits > 0 && layer.inFeatures > 0
    ensures LoRAAttachError(config.lora, layer).Some? ==> e == LoRAAttachError(config.lora, layer)
    ensures LoRAAttachError(config.lora, layer).None? && config.nSplits == 0 ==> e == Some(ZeroDivision)
  {
    var e := CreateError(config.lora.rank, layer);
    if e.Some? then e
    else if config.nSplits == 0 then Some(ZeroDivision)
    else if layer.inFeatures == 0 then Some(ZeroDivision)
    else None
  }

  /** A SkilledLoRA adapter attached to one `nn.Linear` layer. */
  class SkilledLoRA {
    const nSplits: nat
    const nSkills: nat
    const rank: nat
    const alpha: real
    const useWarmup: bool
    const initBRandom: bool
    const inFeatures: nat
    const outFeatures: nat
    const scaling: real
    const layer: Layer
    var training: bool
    var trainingSteps: nat
    var loraA: Factor
    var loraB: Factor
    var layerName: Option<string>

    ghost predicate Valid()
      reads this
    {
      && rank > 0 && nSplits > 0
      && layer.Linear? && WellFormed(layer)
      && inFeatures == layer.inFeatures && outFeatures == layer.outFeatures
      && scaling == alpha / rank as real
      && IsFactor(loraA, nSplits, nSkills, inFeatures / nSplits, rank)
      && IsFactor(loraB, nSplits, nSkills, rank, outFeatures / nSplits)
    }

    /** `__init__` with `create_for_layer` and `reset_parameters` on an input that raises
        nothing; `randomA` and `randomB` stand for the uniform draws. B starts at zero
        unless warm-up or a random B was asked for. */
    constructor (config: SkilledConfig, layer: Layer, randomA: Factor, randomB: Factor)
      requires SkilledAttachError(config, layer).None? && WellFormed(layer)
      requires IsFactor(randomA, config.nSplits, config.nSkills, layer.inFeatures / config.nSplits, config.lora.rank)
      requires IsFactor(randomB, config.nSplits, config.nSkills, config.lora.rank, layer.outFeatures / config.nSplits)
      ensures Valid()
      ensures nSplits == config.nSplits && nSkills == config.nSkills && rank == config.lora.rank
      ensures useWarmup == config.lora.warmup && initBRandom == config.lora.initBRandom
      ensures this.layer == layer && scaling == config.lora.alpha / config.lora.rank as real
      ensures training && trainingSteps == 0 && layerName.None?
      ensures loraA == randomA
      ensures config.lora.warmup || config.lora.initBRandom ==> loraB == randomB
      ensures !config.lora.warmup && !config.lora.initBRandom ==>
        forall q, s :: 0 <= q < nSplits && 0 <= s < nSkills ==> IsZero(loraB[q][s])
    {
      nSplits := config.nSplits;
      nSkills := config.nSkills;
      rank := config.lora.rank;
      alpha := config.lora.alpha;
      useWarmup := config.lora.warmup;
      initBRandom := config.lora.initBRandom;
      inFeatures := layer.inFeatures;
      outFeatures := layer.outFeatures;
      scaling := config.lora.alpha / config.lora.rank as real;
      this.layer := layer;
      training := true;
      trainingSteps := 0;
      layerName := None;
      loraA := randomA;
      if config.lora.warmup || config.lora.initBRandom {
        loraB := randomB;
      } else {
        var o := layer.outFeatures / config.nSplits;
        loraB := seq(config.nSplits, q => seq(config.nSkills, s => Zeros(config.lora.rank, o)));
      }
    }

    method SetTraining(mode: bool)
      modifies this`training
      ensures training == mode
    {
      training := mode;
    }

    /** `forward_linear_`: the step counter advances in training mode before anything
        else (so also when the routing then fails), then each example is routed. */
    method Forward(x: seq<Matrix>, routing: Routing) returns (r: Result<seq<Matrix>, AdapterError>)
      requires Valid()
      requires forall e :: 0 <= e < |x| ==> forall i :: 0 <= i < |x[e]| ==> |x[e][i]| == inFeatures
      modifies this`trainingSteps
      ensures trainingSteps == old(trainingSteps) + (if training then 1 else 0)
      ensures r == SkilledOutput(layer, x, routing, loraA, loraB, nSplits, nSkills, rank, scaling, useWarmup, trainingSteps)
    {
      if training {
        trainingSteps := trainingSteps + 1;
      }
      r := SkilledOutput(layer, x, routing, loraA, loraB, nSplits, nSkills, rank, scaling, useWarmup, trainingSteps);
    }
  }

  // ---------------------------------------------------------------------------
  // The index branch as written: `lora_a[:, idx]` has shape
  // (nSplits, batch, in/nSplits, rank) and is reshaped straight to
  // (batch, in, rank), which reads the splits of one example from the wrong places
  // as soon as nSplits > 1.

  function FlattenMatrix(m: Matrix, cols: nat): (v: Vector)
    requires forall i :: 0 <= i < |m| ==> |m[i]| == cols
    ensures |v| == |m| * cols
  {
    if |m| == 0 then [] else m[0] + FlattenMatrix(m[1..], cols)
  }

  function FlattenBlocks(ms: seq<Matrix>, rows: nat, cols: nat): (v: Vector)
    requires forall k :: 0 <= k < |ms| ==> IsMatrix(ms[k], rows, cols)
    ensures |v| == |ms| * (rows * cols)
  {
    if |ms| == 0 then []
    else
      assert IsMatrix(ms[0], rows, cols);
      FlattenMatrix(ms[0], cols) + FlattenBlocks(ms[1..], rows, cols)
  }

  /** Row-major flattening of a four-dimensional tensor of `|t|` x `n` blocks. */
  function Flatten4(t: seq<seq<Matrix>>, n: nat, rows: nat, cols: nat): (v: Vector)
    requires forall q :: 0 <= q < |t| ==>
      (|t[q]| == n && forall k :: 0 <= k < n ==> IsMatrix(t[q][k], rows, cols))
    ensures |v| == |t| * (n * (rows * cols))
  {
    if |t| == 0 then []
    else
      var rest := Flatten4(t[1..], n, rows, cols);
      assert |t| * (n * (rows * cols)) == n * (rows * cols) + (|t| - 1) * (n * (rows * cols));
      FlattenBlocks(t[0], rows, cols) + rest
  }

  /** Row-major reshape of a flat vector into `n` matrices of `rows` x `cols`. */
  function Reshape3(v: Vector, n: nat, rows: nat, cols: nat): (r: seq<Matrix>)
    requires |v| == n * (rows * cols)
    ensures |r| == n
  {
    if n == 0 then []
    else
      var k := rows * cols;
      assert |v| == k + (n - 1) * k;
      [seq(rows, i requires 0 <= i < rows =>
         assert (i + 1) * cols <= rows * cols by { MulLe(i + 1, rows, cols); }
         v[i * cols..(i + 1) * cols])]
      + Reshape3(v[k..], n - 1, rows, cols)
  }

  lemma MulLe(a: nat, b: nat, c: nat)
    requires a <= b
    ensures a * c <= b * c
  {
  }

  lemma Regroup(q: nat, n: nat, d: nat, r: nat)
    ensures q * (n * (d * r)) == n * ((q * d) * r)
  {
    calc {
      q * (n * (d * r));
      (q * n) * (d * r);
      (n * q) * (d * r);
      n * (q * (d * r));
      n * ((q * d) * r);
    }
  }

  /** `lora_a[:, idx]`: for every split, the blocks the examples' indices select. */
  function Gather(a: Factor, idx: seq<nat>, splits: nat, skills: nat, d: nat, rank: nat): (g: seq<seq<Matrix>>)
    requires IsFactor(a, splits, skills, d, rank)
    requires forall e :: 0 <= e < |idx| ==> idx[e] < skills
    ensures |g| == splits
    ensures forall q :: 0 <= q < splits ==>
      (|g[q]| == |idx| && forall e :: 0 <= e < |idx| ==> g[q][e] == a[q][idx[e]] && IsMatrix(g[q][e], d, rank))
  {
    seq(splits, q requires 0 <= q < splits => seq(|idx|, e requires 0 <= e < |idx| => a[q][idx[e]]))
  }

  /** `lora_a[:, idx].reshape(bs, in, rank)`: what each example's A is, as written. */
  function IndexedAAsWritten(a: Factor, idx: seq<nat>, splits: nat, skills: nat, d: nat, rank: nat): (r: seq<Matrix>)
    requires IsFactor(a, splits, skills, d, rank)
    requires forall e :: 0 <= e < |idx| ==> idx[e] < skills
    ensures |r| == |idx|
  {
    var flat := Flatten4(Gather(a, idx, splits, skills, d, rank), |idx|, d, rank);
    Regroup(splits, |idx|, d, rank);
    Reshape3(flat, |idx|, splits * d, rank)
  }

  /** A small tensor with two splits and two skills whose entries tell the blocks apart:
      block (q, s) is the 1 x 1 matrix holding `2q + s`. */
  function Witness(): (a: Factor)
    ensures IsFactor(a, 2, 2, 1, 1)
  {
    [[[[0.0]], [[1.0]]], [[[2.0]], [[3.0]]]]
  }

  /** The gathered and flattened witness, for skills [0, 1]: the blocks in (split, example)
      order. */
  lemma WitnessFlattened()
    ensures Flatten4(Gather(Witness(), [0, 1], 2, 2, 1, 1), 2, 1, 1) == [0.0, 1.0, 2.0, 3.0]
  {
    var gathered := Gather(Witness(), [0, 1], 2, 2, 1, 1);
    assert gathered[0][0] == [[0.0]] && gathered[0][1] == [[1.0]];
    assert gathered[1][0] == [[2.0]] && gathered[1][1] == [[3.0]];
    assert gathered[0] == [[[0.0]], [[1.0]]];
    assert gathered[1] == [[[2.0]], [[3.0]]];
    assert gathered[1..] == [[[[2.0]], [[3.0]]]];
    assert FlattenMatrix([[0.0]], 1) == [0.0];
    assert FlattenMatrix([[1.0]], 1) == [1.0];
    assert FlattenMatrix([[2.0]], 1) == [2.0];
    assert FlattenMatrix([[3.0]], 1) == [3.0];
    assert FlattenBlocks([[[0.0]], [[1.0]]], 1, 1) == [0.0, 1.0];
    assert FlattenBlocks([[[2.0]], [[3.0]]], 1, 1) == [2.0, 3.0];
  }

  /** With two splits and the batch routed to skills [0, 1], the as-written reshape gives
      example 0 the first split of skill 0 followed by the first split of skill 1, where
      the intended A stacks both splits of skill 0. */
  lemma IndexReshapeMixesExamples()
    ensures IndexedAAsWritten(Witness(), [0, 1], 2, 2, 1, 1)[0] == [[0.0], [1.0]]
    ensures StackRows(ExampleBlocks(Witness(), Indices([0, 1]), 0, 2, 2, 1, 1), 1, 1) == [[0.0], [2.0]]
  {
    var a := Witness();
    WitnessFlattened();
    var flat := [0.0, 1.0, 2.0, 3.0];
    assert IndexedAAsWritten(a, [0, 1], 2, 2, 1, 1) == Reshape3(flat, 2, 2, 1);
    var first := Reshape3(flat, 2, 2, 1)[0];
    assert first[0] == [0.0] && first[1] == [1.0];
    var blocks := ExampleBlocks(a, Indices([0, 1]), 0, 2, 2, 1, 1);
    assert blocks == [[[0.0]], [[2.0]]];
  }

  // ---------------------------------------------------------------------------
  // The B factor of the index branch as written: `lora_b[:, idx]` has shape
  // (nSplits, batch, rank, out/nSplits); `transpose(1, 2)` makes it
  // (nSplits, rank, batch, out/nSplits), and reshaping that to (batch, rank, out)
  // interleaves rank and batch, so examples share rows even with one split.

  lemma RegroupB(q: nat, n: nat, r: nat, o: nat)
    ensures q * (r * (n * o)) == n * (r * (q * o))
  {
    calc {
      q * (r * (n * o));
      q * (n * (r * o));
      (q * n) * (r * o);
      (n * q) * (r * o);
      n * (q * (r * o));
      n * (r * (q * o));
    }
  }

  /** `lora_b[:, idx].transpose(1, 2)`: for every split and rank row, the rows the
      examples' blocks hold there, one per example. */
  function TransposeGathered(g: seq<seq<Matrix>>, n: nat, rank: nat, o: nat): (t: seq<seq<Matrix>>)
    requires forall q :: 0 <= q < |g| ==> (|g[q]| == n && forall e :: 0 <= e < n ==> IsMatrix(g[q][e], rank, o))
    ensures |t| == |g|
    ensures forall q :: 0 <= q < |g| ==>
      (|t[q]| == rank && forall k :: 0 <= k < rank ==>
        t[q][k] == RowAcross(g[q], rank, o, k) && IsMatrix(t[q][k], n, o))
  {
    seq(|g|, q requires 0 <= q < |g| =>
      seq(rank, k requires 0 <= k < rank => RowAcross(g[q], rank, o, k)))
  }

  /** `lora_b[:, idx].transpose(1, 2).reshape(bs, rank, out)`: what each example's B is,
      as written. */
  function IndexedBAsWritten(b: Factor, idx: seq<nat>, splits: nat, skills: nat, rank: nat, o: nat): (r: seq<Matrix>)
    requires IsFactor(b, splits, skills, rank, o)
    requires forall e :: 0 <= e < |idx| ==> idx[e] < skills
    ensures |r| == |idx|
  {
    var t := TransposeGathered(Gather(b, idx, splits, skills, rank, o), |idx|, rank, o);
    var flat := Flatten4(t, rank, |idx|, o);
    RegroupB(splits, |idx|, rank, o);
    Reshape3(flat, |idx|, rank, splits * o)
  }

  /** One split and two skills of rank 2: skill s's B block is the column (2s, 2s + 1). */
  function WitnessB(): (b: Factor)
    ensures IsFactor(b, 1, 2, 2, 1)
  {
    [[[[0.0], [1.0]], [[2.0], [3.0]]]]
  }

  /** The transposed and flattened witness, for skills [0, 1]: rank row 0 of both
      examples, then rank row 1 of both. */
  lemma WitnessBFlattened()
    ensures Flatten4(TransposeGathered(Gather(WitnessB(), [0, 1], 1, 2, 2, 1), 2, 2, 1), 2, 2, 1)
         == [0.0, 2.0, 1.0, 3.0]
  {
    var g := Gather(WitnessB(), [0, 1], 1, 2, 2, 1);
    assert g[0][0] == [[0.0], [1.0]] && g[0][1] == [[2.0], [3.0]];
    var t := TransposeGathered(g, 2, 2, 1);
    assert t[0][0] == RowAcross(g[0], 2, 1, 0);
    assert t[0][1] == RowAcross(g[0], 2, 1, 1);
    assert t[0][0] == [[0.0], [2.0]];
    assert t[0][1] == [[1.0], [3.0]];
    assert t[0] == [[[0.0], [2.0]], [[1.0], [3.0]]];
    assert t[1..] == [];
    assert FlattenMatrix([[0.0], [2.0]], 1) == [0.0, 2.0] by {
      assert FlattenMatrix([[2.0]], 1) == [2.0];
    }
    assert FlattenMatrix([[1.0], [3.0]], 1) == [1.0, 3.0] by {
      assert FlattenMatrix([[3.0]], 1) == [3.0];
    }
    assert FlattenBlocks([[[0.0], [2.0]], [[1.0], [3.0]]], 2, 1) == [0.0, 2.0, 1.0, 3.0] by {
      assert FlattenBlocks([[[1.0], [3.0]]], 2, 1) == [1.0, 3.0];
    }
  }

  /** With one split, rank 2 and the batch routed to skills [0, 1], the as-written B of
      example 0 holds rank row 0 of skill 0 and rank row 0 of skill 1, where the
      intended B is skill 0's block (0, 1). */
  lemma IndexReshapeMixesExamplesB()
    ensures IndexedBAsWritten(WitnessB(), [0, 1], 1, 2, 2, 1)[0] == [[0.0], [2.0]]
    ensures StackCols(ExampleBlocks(WitnessB(), Indices([0, 1]), 0, 1, 2, 2, 1), 2, 1) == [[0.0], [1.0]]
  {
    var b := WitnessB();
    WitnessBFlattened();
    var flat := [0.0, 2.0, 1.0, 3.0];
    assert IndexedBAsWritten(b, [0, 1], 1, 2, 2, 1) == Reshape3(flat, 2, 2, 1);
    var first := Reshape3(flat, 2, 2, 1)[0];
    assert first[0] == [0.0] && first[1] == [2.0];
    var blocks := ExampleBlocks(b, Indices([0, 1]), 0, 1, 2, 2, 1);
    assert blocks == [[[0.0], [1.0]]];
    var m := StackCols(blocks, 2, 1);
    assert RowAcross(blocks, 2, 1, 0) == [[0.0]];
    assert RowAcross(blocks, 2, 1, 1) == [[1.0]];
    assert Concat([[0.0]], 1) == [0.0];
    assert Concat([[1.0]], 1) == [1.0];
    assert m[0] == [0.0] && m[1] == [1.0];
  }
}
