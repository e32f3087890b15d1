/** The configuration of routing experiments: the defaults it adds to the base config
    and the checks and batch-size normalisation run after the arguments are read. */
module RoutingConfigs {
  import opened Wrappers
  import opened Arith
  import ExpertConfigs

  datatype ConfigError =
    | MissingEnv(variable: string)   // an evaluation is enabled but its data directory is not set
    | ZeroDivision

  class RoutingConfig {
    var microBatchSize: int
    var loadIn8bit: bool
    var wandbProject: Option<string>
    var tensorboard: bool
    var switchToAverage: int
    var loraAlpha: int
    var routerWeightDecay: Option<real>
    var routerLearningRate: Option<real>
    var routerTemperature: real
    var routerTeacherTemperature: real
    var routerNormalizeWeights: bool
    var routerTeacherCenterMomentum: real
    var routerSharedWeights: bool
    var fastDevRun: bool
    var hfTokenHub: Option<string>
    var validationPortion: real
    var evalHellaswag: bool
    var evalArc: bool
    var evalTruthfulqa: bool
    var evalSuperni: bool
    var evalMmlu: bool
    var evalBatches: int
    var genAlpacaEval: bool
    var dataDir: string
    var outputDir: string
    /** Set by the base configuration or the command line. */
    var trainBatchSize: int
    var gradientAccumulationSteps: int

    /** `_set_defaults` on top of the base configuration's batch settings. */
    constructor (trainBatchSize: int, gradientAccumulationSteps: int, env: map<string, string>)
      ensures this.trainBatchSize == trainBatchSize && this.gradientAccumulationSteps == gradientAccumulationSteps
      ensures microBatchSize == 4 && !loadIn8bit && wandbProject.None? && !tensorboard && switchToAverage == 0
      ensures loraAlpha == 16
      ensures routerWeightDecay.None? && routerLearningRate.None?
      ensures routerTemperature == 1.0 && routerTeacherTemperature == 1.0 && !routerNormalizeWeights
      ensures routerTeacherCenterMomentum == 1.0 && routerSharedWeights
      ensures !fastDevRun && hfTokenHub.None? && validationPortion == 0.03
      ensures evalHellaswag && evalArc && evalTruthfulqa && evalSuperni && evalMmlu
      ensures evalBatches == -1 && !genAlpacaEval
      ensures dataDir == ExpertConfigs.GetEnv(env, "AMLT_DATA_DIR", "~/data/")
      ensures outputDir == ExpertConfigs.GetEnv(env, "AMLT_OUTPUT_DIR", "tmp/instruction_learning/")
    {
      this.trainBatchSize := trainBatchSize;
      this.gradientAccumulationSteps := gradientAccumulationSteps;
      microBatchSize := 4;
      loadIn8bit := false;
      wandbProject := None;
      tensorboard := false;
      switchToAverage := 0;
      loraAlpha := 16;
      routerWeightDecay := None;
      routerLearningRate := None;
      routerTemperature := 1.0;
      routerTeacherTemperature := 1.0;
      routerNormalizeWeights := false;
      routerTeacherCenterMomentum := 1.0;
      routerSharedWeights := true;
      fastDevRun := false;
      hfTokenHub := None;
      validationPortion := 0.03;
      evalHellaswag := true;
      evalArc := true;
      evalTruthfulqa := true;
      evalSuperni := true;
      evalMmlu := true;
      evalBatches := -1;
      genAlpacaEval := false;
      dataDir := ExpertConfigs.GetEnv(env, "AMLT_DATA_DIR", "~/data/");
      outputDir := ExpertConfigs.GetEnv(env, "AMLT_OUTPUT_DIR", "tmp/instruction_learning/");
    }

    /** `post_init`: MMLU evaluation needs `MMLU_DATA_DIR` and Super-NaturalInstructions
        evaluation needs `NI_DATA_DIR` in the environment, checked in that order before
        anything changes; then the accumulation steps are the original train batch size
        floor-divided by the micro size, and the train batch size becomes the micro size. */
    method PostInit(envKeys: set<string>) returns (r: Result<(), ConfigError>)
      modifies this`gradientAccumulationSteps, this`trainBatchSize
      ensures evalMmlu && "MMLU_DATA_DIR" !in envKeys ==> r == Failure(MissingEnv("MMLU_DATA_DIR"))
      ensures !(evalMmlu && "MMLU_DATA_DIR" !in envKeys) && evalSuperni && "NI_DATA_DIR" !in envKeys ==>
        r == Failure(MissingEnv("NI_DATA_DIR"))
      ensures r.Failure? ==> trainBatchSize == old(trainBatchSize) && gradientAccumulationSteps == old(gradientAccumulationSteps)
      ensures r.Success? <==>
        !(evalMmlu && "MMLU_DATA_DIR" !in envKeys) && !(evalSuperni && "NI_DATA_DIR" !in envKeys) && microBatchSize != 0
      ensures r.Success? ==> trainBatchSize == microBatchSize
      ensures r.Success? ==> gradientAccumulationSteps == FloorDiv(old(trainBatchSize), microBatchSize)
      ensures r.Success? && microBatchSize > 0 ==>
        gradientAccumulationSteps * trainBatchSize <= old(trainBatchSize) < (gradientAccumulationSteps + 1) * trainBatchSize
    {
      if evalMmlu && "MMLU_DATA_DIR" !in envKeys {
        return Failure(MissingEnv("MMLU_DATA_DIR"));
      }
      if evalSuperni && "NI_DATA_DIR" !in envKeys {
        return Failure(MissingEnv("NI_DATA_DIR"));
      }
      if microBatchSize == 0 {
        return Failure(ZeroDivision);
      }
      gradientAccumulationSteps := FloorDiv(trainBatchSize, microBatchSize);
      trainBatchSize := microBatchSize;
      r := Success(());
    }
  }
}
