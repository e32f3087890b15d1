/** LoRA-family adapters wrapped around one layer of a frozen base model:
    LoRA (a low-rank additive correction with an optional linear warm-up gate),
    IA3 (a learned channel-wise rescaling) and LN (a normalisation layer with its
    own learned gain). */
module Adapters {
  import opened Wrappers
  import opened Matrices

  /** The wrapped base layer. `Linear` follows torch's `nn.Linear`: `weight` is
      `outFeatures` x `inFeatures` and the output is `x @ weight^T + bias`. `Norm` is a
      normalisation layer (a gain vector and an epsilon, no feature counts); `OtherLayer`
      is any other module, which may or may not expose `in_features`/`out_features`. */
  datatype Layer =
    | Linear(inFeatures: nat, outFeatures: nat, weight: Matrix, bias: Option<Vector>)
    | Norm(gain: Vector, varianceEpsilon: real)
    | OtherLayer(hasFeatureCounts: bool)

  /** The layer's tensors have the shapes its feature counts announce. */
  predicate WellFormed(layer: Layer) {
    layer.Linear? ==>
      IsMatrix(layer.weight, layer.outFeatures, layer.inFeatures) &&
      (layer.bias.Some? ==> |layer.bias.value| == layer.outFeatures)
  }

  /** The exceptions the adapters raise. */
  datatype AdapterError =
    | MissingAttribute      // AttributeError: the layer lacks an attribute the adapter reads
    | ZeroDivision          // ZeroDivisionError
    | NotImplemented        // NotImplementedError: only nn.Linear is supported
    | AssertionFailed       // a failed `assert`
    | LayerNameNotSet       // ValueError: the layer name was never injected
    | ShapeMismatch         // a RuntimeError/IndexError from a tensor operation

  /** Reading `Adapter.layer_name`: the injected name, or an error before injection. */
  function LayerName(injected: Option<string>): (r: Result<string, AdapterError>)
    ensures r.Failure? <==> injected.None?
    ensures r.Failure? ==> r.error == LayerNameNotSet
    ensures r.Success? ==> r.value == injected.value
  {
    match injected
    case Some(name) => Success(name)
    case None => Failure(LayerNameNotSet)
  }

  /** The base layer's own output on a batch of rows `x`. */
  function BaseOutput(layer: Layer, x: Matrix): (y: Matrix)
    requires layer.Linear? && WellFormed(layer)
    requires forall i :: 0 <= i < |x| ==> |x[i]| == layer.inFeatures
    ensures IsMatrix(y, |x|, layer.outFeatures)
  {
    seq(|x|, i requires 0 <= i < |x| =>
      seq(layer.outFeatures, o requires 0 <= o < layer.outFeatures =>
        Dot(x[i], layer.weight[o]) + (if layer.bias.Some? then layer.bias.value[o] else 0.0)))
  }

  /** The warm-up gate `min(steps / 10000, 1)`. */
  function Warmup(steps: nat): (g: real)
    ensures 0.0 <= g <= 1.0
    ensures steps >= 10000 ==> g == 1.0
    ensures steps < 10000 ==> g < 1.0 && g == steps as real / 10000.0
  {
    var ramp := steps as real / 10000.0;
    if ramp < 1.0 then ramp else 1.0
  }

  /** The gate never decreases as the step counter grows. */
  lemma WarmupMonotone(s1: nat, s2: nat)
    requires s1 <= s2
    ensures Warmup(s1) <= Warmup(s2)
  {
  }

  /** `scaling * ((x @ A) @ B)`, gated by the warm-up factor when warm-up is on. */
  function Correction(x: Matrix, a: Matrix, b: Matrix, rank: nat, outF: nat, scaling: real,
                      useWarmup: bool, steps: nat): (c: Matrix)
    requires forall i :: 0 <= i < |x| ==> |x[i]| == |a|
    requires forall k :: 0 <= k < |a| ==> |a[k]| == rank
    requires IsMatrix(b, rank, outF)
    ensures IsMatrix(c, |x|, outF)
  {
    var out := Scale(MatMul(MatMul(x, a, rank), b, outF), scaling);
    if useWarmup then Scale(out, Warmup(steps)) else out
  }

  /** What `LoRA.forward_linear_` returns: base output plus the correction. */
  function LoRAOutput(layer: Layer, x: Matrix, a: Matrix, b: Matrix, rank: nat, scaling: real,
                      useWarmup: bool, steps: nat): (y: Matrix)
    requires layer.Linear? && WellFormed(layer)
    requires forall i :: 0 <= i < |x| ==> |x[i]| == layer.inFeatures
    requires IsMatrix(a, layer.inFeatures, rank) && IsMatrix(b, rank, layer.outFeatures)
    ensures IsMatrix(y, |x|, layer.outFeatures)
  {
    Add(BaseOutput(layer, x), Correction(x, a, b, rank, layer.outFeatures, scaling, useWarmup, steps))
  }

  /** With an all-zero B the correction vanishes, so the adapter reproduces the base
      layer exactly, whatever the input, scaling, gate or step count. */
  lemma NoOpWithZeroB(layer: Layer, x: Matrix, a: Matrix, b: Matrix, rank: nat, scaling: real,
                      useWarmup: bool, steps: nat)
    requires layer.Linear? && WellFormed(layer)
    requires forall i :: 0 <= i < |x| ==> |x[i]| == layer.inFeatures
    requires IsMatrix(a, layer.inFeatures, rank) && IsMatrix(b, rank, layer.outFeatures)
    requires IsZero(b)
    ensures LoRAOutput(layer, x, a, b, rank, scaling, useWarmup, steps) == BaseOutput(layer, x)
  {
    var xa := MatMul(x, a, rank);
    MatMulZero(xa, b, layer.outFeatures);
    var c := Correction(x, a, b, rank, layer.outFeatures, scaling, useWarmup, steps);
    assert IsZero(c);
    AddZero(BaseOutput(layer, x), c);
  }

  /** The LoRA hyper-parameters read from the modifier configuration. */
  datatype LoRAConfig = LoRAConfig(rank: nat, alpha: real, dropout: real, warmup: bool, initBRandom: bool)

  /** The first exception `LoRA.__init__` raises before `reset_parameters`, if any: the
      feature counts are read first, then `alpha / rank` is computed, then
      `create_for_layer` checks the kind of layer. */
  function CreateError(rank: nat, layer: Layer): (e: Option<AdapterError>)
    ensures e.None? <==> layer.Linear? && rank > 0
  {
    if !(layer.Linear? || (layer.OtherLayer? && layer.hasFeatureCounts)) then Some(MissingAttribute)
    else if rank == 0 then Some(ZeroDivision)
    else if !layer.Linear? then Some(NotImplemented)
    else None
  }

  /** The first exception `LoRA.__init__` raises, if any: the checks of `CreateError`,
      then `reset_parameters`, whose `gain / sqrt(in_features)` divides by zero for a
      layer without inputs. */
  function LoRAAttachError(config: LoRAConfig, layer: Layer): (e: Option<AdapterError>)
    ensures e.None? <==> layer.Linear? && config.rank > 0 && layer.inFeatures > 0
    ensures layer.Norm? || layer == OtherLayer(false) ==> e == Some(MissingAttribute)
    ensures (layer.Linear? || layer == OtherLayer(true)) && config.rank == 0 ==> e == Some(ZeroDivision)
    ensures layer == OtherLayer(true) && config.rank > 0 ==> e == Some(NotImplemented)
    ensures layer.Linear? && layer.inFeatures == 0 ==> e == Some(ZeroDivision)
  {
    var created := CreateError(config.rank, layer);
    if created.Some? then created
    else if layer.inFeatures == 0 then Some(ZeroDivision)
    else None
  }

  /** The initial B factor chosen by `reset_parameters`: zeros unless warm-up or a
      random B was asked for, in which case the random draw `randomB`. */
  function InitialB(config: LoRAConfig, randomB: Matrix, outF: nat): (b: Matrix)
    requires IsMatrix(randomB, config.rank, outF)
    ensures IsMatrix(b, config.rank, outF)
    ensures !config.warmup && !config.initBRandom ==> IsZero(b)
    ensures config.warmup || config.initBRandom ==> b == randomB
  {
    if config.warmup || config.initBRandom then randomB else Zeros(config.rank, outF)
  }

  /** A LoRA adapter attached to one `nn.Linear` layer. */
  class LoRA {
    const rank: nat
    const alpha: real
    const dropout: real
    const useWarmup: bool
    const initBRandom: bool
    const inFeatures: nat
    const outFeatures: nat
    const scaling: real
    const layer: Layer
    var training: bool
    var trainingSteps: nat
    var loraA: Matrix
    var loraB: Matrix
    var layerName: Option<string>

    ghost predicate Valid()
      reads this
    {
      && rank > 0
      && layer.Linear? && WellFormed(layer)
      && inFeatures == layer.inFeatures && outFeatures == layer.outFeatures
      && scaling == alpha / rank as real
      && IsMatrix(loraA, inFeatures, rank)
      && IsMatrix(loraB, rank, outFeatures)
    }

    /** `__init__` followed by `create_for_layer` and `reset_parameters`, on an input
        that raises nothing; `randomA` and `randomB` stand for the uniform draws. */
    constructor (config: LoRAConfig, layer: Layer, randomA: Matrix, randomB: Matrix)
      requires LoRAAttachError(config, layer).None? && WellFormed(layer)
      requires IsMatrix(randomA, layer.inFeatures, config.rank)
      requires IsMatrix(randomB, config.rank, layer.outFeatures)
      ensures Valid()
      ensures rank == config.rank && alpha == config.alpha && dropout == config.dropout
      ensures useWarmup == config.warmup && initBRandom == config.initBRandom
      ensures this.layer == layer && scaling == config.alpha / config.rank as real
      ensures training && trainingSteps == 0 && layerName.None?
      ensures loraA == randomA && loraB == InitialB(config, randomB, layer.outFeatures)
    {
      rank := config.rank;
      alpha := config.alpha;
      dropout := config.dropout;
      useWarmup := config.warmup;
      initBRandom := config.initBRandom;
      inFeatures := layer.inFeatures;
      outFeatures := layer.outFeatures;
      training := true;
      trainingSteps := 0;
      scaling := config.alpha / config.rank as real;
      this.layer := layer;
      layerName := None;
      loraA := randomA;
      loraB := InitialB(config, randomB, layer.outFeatures);
    }

    /** `nn.Module.train(mode)` / `eval()`. */
    method SetTraining(mode: bool)
      modifies this`training
      ensures training == mode
    {
      training := mode;
    }

    /** The injection of `__layer_name__` by the modifier. */
    method InjectLayerName(name: string)
      modifies this`layerName
      ensures layerName == Some(name)
    {
      layerName := Some(name);
    }

    /** `forward_linear_`: one more training step when in training mode, then the base
        output plus the (gated) low-rank correction, gated with the updated counter. */
    method ForwardLinear(x: Matrix) returns (y: Matrix)
      requires Valid()
      requires forall i :: 0 <= i < |x| ==> |x[i]| == inFeatures
      modifies this`trainingSteps
      ensures trainingSteps == old(trainingSteps) + (if training then 1 else 0)
      ensures y == LoRAOutput(layer, x, loraA, loraB, rank, scaling, useWarmup, trainingSteps)
    {
      if training {
        trainingSteps := trainingSteps + 1;
      }
      var adapterOut := Scale(MatMul(MatMul(x, loraA, rank), loraB, outFeatures), scaling);
      var warmup := Warmup(trainingSteps);
      if useWarmup {
        adapterOut := Scale(adapterOut, warmup);
      }
      y := Add(BaseOutput(layer, x), adapterOut);
    }
  }

  /** Constructing a LoRA adapter: the exception `__init__` raises, or a fresh adapter. */
  method NewLoRA(config: LoRAConfig, layer: Layer, randomA: Matrix, randomB: Matrix)
    returns (r: Result<LoRA, AdapterError>)
    requires WellFormed(layer)
    requires LoRAAttachError(config, layer).None? ==>
      IsMatrix(randomA, layer.inFeatures, config.rank) && IsMatrix(randomB, config.rank, layer.outFeatures)
    ensures r.Failure? <==> LoRAAttachError(config, layer).Some?
    ensures r.Failure? ==> r.error == LoRAAttachError(config, layer).value
    ensures r.Success? ==> fresh(r.value) && r.value.Valid() && r.value.trainingSteps == 0
    ensures r.Success? ==> r.value.layer == layer && r.value.rank == config.rank && r.value.training
    ensures r.Success? ==> r.value.useWarmup == config.warmup && r.value.initBRandom == config.initBRandom
    ensures r.Success? ==> r.value.scaling == config.alpha / config.rank as real && r.value.loraA == randomA
    ensures r.Success? ==> r.value.loraB == InitialB(config, randomB, layer.outFeatures)
  {
    var err := LoRAAttachError(config, layer);
    if err.Some? {
      return Failure(err.value);
    }
    var lora := new LoRA(config, layer, randomA, randomB);
    return Success(lora);
  }

  /** Attaching a default-initialised LoRA (no warm-up, no random B) and running it
      once, in training or evaluation mode, reproduces the base layer exactly. */
  method AttachAndForward(config: LoRAConfig, layer: Layer, randomA: Matrix, randomB: Matrix,
                          x: Matrix, training: bool)
    returns (r: Result<Matrix, AdapterError>)
    requires WellFormed(layer)
    requires LoRAAttachError(config, layer).None? ==>
      IsMatrix(randomA, layer.inFeatures, config.rank) && IsMatrix(randomB, config.rank, layer.outFeatures)
    requires layer.Linear? ==> forall i :: 0 <= i < |x| ==> |x[i]| == layer.inFeatures
    requires !config.warmup && !config.initBRandom
    ensures r.Failure? <==> LoRAAttachError(config, layer).Some?
    ensures r.Success? ==> layer.Linear? && r.value == BaseOutput(layer, x)
  {
    var created := NewLoRA(config, layer, randomA, randomB);
    if created.Failure? {
      return Failure(created.error);
    }
    var lora := created.value;
    lora.SetTraining(training);
    var y := lora.ForwardLinear(x);
    NoOpWithZeroB(layer, x, lora.loraA, lora.loraB, lora.rank, lora.scaling, lora.useWarmup, lora.trainingSteps);
    return Success(y);
  }

  /** An IA3 adapter: the base output rescaled channel-wise by `multiLoraB`. */
  datatype IA3 = IA3(layer: Layer, multiLoraB: Vector)

  /** `IA3.__init__`: only `nn.Linear` is accepted; the scaling starts as all ones. */
  function NewIA3(layer: Layer): (r: Result<IA3, AdapterError>)
    ensures r.Success? <==> layer.Linear?
    ensures r.Failure? ==> r.error == AssertionFailed
    ensures r.Success? ==> r.value.layer == layer && |r.value.multiLoraB| == layer.outFeatures
    ensures r.Success? ==> forall o :: 0 <= o < layer.outFeatures ==> r.value.multiLoraB[o] == 1.0
  {
    if layer.Linear? then Success(IA3(layer, seq(layer.outFeatures, o => 1.0)))
    else Failure(AssertionFailed)
  }

  /** `IA3.forward`: `layer(x) * multi_lora_b`, broadcast over rows. */
  function IA3Forward(adapter: IA3, x: Matrix): (y: Matrix)
    requires adapter.layer.Linear? && WellFormed(adapter.layer)
    requires |adapter.multiLoraB| == adapter.layer.outFeatures
    requires forall i :: 0 <= i < |x| ==> |x[i]| == adapter.layer.inFeatures
    ensures IsMatrix(y, |x|, adapter.layer.outFeatures)
    ensures forall i, o :: 0 <= i < |x| && 0 <= o < adapter.layer.outFeatures ==>
      y[i][o] == BaseOutput(adapter.layer, x)[i][o] * adapter.multiLoraB[o]
  {
    var base := BaseOutput(adapter.layer, x);
    seq(|x|, i requires 0 <= i < |x| =>
      seq(adapter.layer.outFeatures, o requires 0 <= o < adapter.layer.outFeatures =>
        base[i][o] * adapter.multiLoraB[o]))
  }

  /** A freshly attached IA3 adapter is the identity on the base output. */
  lemma IA3StartsAsIdentity(layer: Layer, x: Matrix)
    requires layer.Linear? && WellFormed(layer)
    requires forall i :: 0 <= i < |x| ==> |x[i]| == layer.inFeatures
    ensures NewIA3(layer).Success?
    ensures IA3Forward(NewIA3(layer).value, x) == BaseOutput(layer, x)
  {
    var y := IA3Forward(NewIA3(layer).value, x);
    var base := BaseOutput(layer, x);
    forall i | 0 <= i < |x|
      ensures y[i] == base[i]
    {
      assert forall o :: 0 <= o < layer.outFeatures ==> y[i][o] == base[i][o];
    }
  }

  /** An LN adapter: a learned gain initialised from the normalisation layer's own. */
  datatype LN = LN(outFeatures: nat, varianceEpsilon: real, loraB: Vector)

  /** `LN.__init__`: the layer must carry a gain and an epsilon, and its width must be
      a multiple of the number of splits. */
  function NewLN(layer: Layer, nSplits: int): (r: Result<LN, AdapterError>)
    ensures r.Success? <==> layer.Norm? && nSplits != 0 && |layer.gain| % nSplits == 0
    ensures !layer.Norm? ==> r == Failure(MissingAttribute)
    ensures layer.Norm? && nSplits == 0 ==> r == Failure(ZeroDivision)
    ensures layer.Norm? && nSplits != 0 && |layer.gain| % nSplits != 0 ==> r == Failure(AssertionFailed)
    ensures r.Success? ==> r.value.loraB == layer.gain && r.value.outFeatures == |layer.gain|
  {
    if !layer.Norm? then Failure(MissingAttribute)
    else if nSplits == 0 then Failure(ZeroDivision)
    else if |layer.gain| % nSplits != 0 then Failure(AssertionFailed)
    else Success(LN(|layer.gain|, layer.varianceEpsilon, layer.gain))
  }
}
