/** The configuration of expert training: the metadata kept with each expert, the
    defaults the expert config adds to the base config, and the batch-size
    normalisation run after the arguments are read. The process environment is a map
    from variable names to values. */
module ExpertConfigs {
  import opened Wrappers
  import opened Arith

  /** Metadata saved with an expert and never given on the command line. */
  datatype ExpertInfo = ExpertInfo(parentNode: Option<string>, expertName: Option<string>, expertTaskName: Option<string>)

  function DefaultExpertInfo(): (e: ExpertInfo)
    ensures e.parentNode.None? && e.expertName.None? && e.expertTaskName.None?
  {
    ExpertInfo(None, None, None)
  }

  /** `os.getenv(key, default)`. */
  function GetEnv(env: map<string, string>, key: string, default: string): (v: string)
    ensures key in env ==> v == env[key]
    ensures key !in env ==> v == default
  {
    if key in env then env[key] else default
  }

  datatype ConfigError = ZeroDivision   // `train_batch_size // micro_batch_size` with a zero divisor

  class ExpertConfig {
    var loadIn8bit: bool
    var wandbProject: Option<string>
    var tensorboard: bool
    var hfTokenHub: Option<string>
    var hfRepoId: Option<string>
    var expertName: Option<string>
    var routing: string
    var mmluTestSplit: string
    var loadModule: Option<string>
    var moduleGraph: Option<string>
    var microBatchSize: Option<int>
    var validationPortion: real
    var expandValSetWDownstream: bool
    var evalMmluCallbacksEvery: int
    var evalTestSetCallbackEvery: int
    var evalRougeLCallbackEvery: int
    var testSetsCallbacks: seq<string>
    var useCustomValidCallback: bool
    var dataDir: string
    var outputDir: string
    /** Set by the base configuration or the command line. */
    var trainBatchSize: int
    var gradientAccumulationSteps: int

    /** `_set_defaults` on top of the base configuration's batch settings. */
    constructor (trainBatchSize: int, gradientAccumulationSteps: int, env: map<string, string>)
      ensures this.trainBatchSize == trainBatchSize && this.gradientAccumulationSteps == gradientAccumulationSteps
      ensures !loadIn8bit && wandbProject.None? && !tensorboard && hfTokenHub.None? && hfRepoId.None?
      ensures expertName.None? && routing == "subject" && mmluTestSplit == "test"
      ensures loadModule.None? && moduleGraph.None? && microBatchSize.None? && validationPortion == 0.03
      ensures !expandValSetWDownstream
      ensures evalMmluCallbacksEvery == 0 && evalTestSetCallbackEvery == 0 && evalRougeLCallbackEvery == 0
      ensures testSetsCallbacks == [] && !useCustomValidCallback
      ensures dataDir == GetEnv(env, "AMLT_DATA_DIR", "~/data/")
      ensures outputDir == GetEnv(env, "AMLT_OUTPUT_DIR", "tmp/instruction_learning/")
    {
      this.trainBatchSize := trainBatchSize;
      this.gradientAccumulationSteps := gradientAccumulationSteps;
      loadIn8bit := false;
      wandbProject := None;
      tensorboard := false;
      hfTokenHub := None;
      hfRepoId := None;
      expertName := None;
      routing := "subject";
      mmluTestSplit := "test";
      loadModule := None;
      moduleGraph := None;
      microBatchSize := None;
      validationPortion := 0.03;
      expandValSetWDownstream := false;
      evalMmluCallbacksEvery := 0;
      evalTestSetCallbackEvery := 0;
      evalRougeLCallbackEvery := 0;
      testSetsCallbacks := [];
      useCustomValidCallback := false;
      dataDir := GetEnv(env, "AMLT_DATA_DIR", "~/data/");
      outputDir := GetEnv(env, "AMLT_OUTPUT_DIR", "tmp/instruction_learning/");
    }

    /** `post_init`: an unset micro batch size takes the train batch size; the
        accumulation steps are the original train batch size floor-divided by the micro
        size, and the train batch size becomes the micro size. A zero micro size raises
        after the micro size has been filled in. */
    method PostInit() returns (r: Result<(), ConfigError>)
      modifies this`microBatchSize, this`gradientAccumulationSteps, this`trainBatchSize
      ensures microBatchSize == Some(old(microBatchSize).GetOr(old(trainBatchSize)))
      ensures r.Failure? <==> microBatchSize.value == 0
      ensures r.Failure? ==> trainBatchSize == old(trainBatchSize) && gradientAccumulationSteps == old(gradientAccumulationSteps)
      ensures r.Success? ==> trainBatchSize == microBatchSize.value
      ensures r.Success? ==> gradientAccumulationSteps == FloorDiv(old(trainBatchSize), microBatchSize.value)
      ensures r.Success? && microBatchSize.value > 0 ==>
        gradientAccumulationSteps * trainBatchSize <= old(trainBatchSize) < (gradientAccumulationSteps + 1) * trainBatchSize
      ensures r.Success? && old(microBatchSize).None? ==> gradientAccumulationSteps == 1 && trainBatchSize == old(trainBatchSize)
    {
      if microBatchSize.None? {
        microBatchSize := Some(trainBatchSize);
      }
      var micro := microBatchSize.value;
      if micro == 0 {
        return Failure(ZeroDivision);
      }
      if old(microBatchSize).None? {
        FloorDivSelf(micro);
      }
      gradientAccumulationSteps := FloorDiv(trainBatchSize, micro);
      trainBatchSize := micro;
      r := Success(());
    }
  }
}
