/** The decision logic of the expert fine-tuning script: the registry of fine-tuning
    regimes, the lookup of the one live expert trained on a task, the choice of
    retriever and SVD sparsity threshold, and the trainer settings derived from the
    config (early-stopping monitor, validation interval, step limit, evaluation tasks). */
module Finetune {
  import opened Wrappers
  import opened Strings

  /** A registered fine-tuning function, identified by its name in the program. */
  type FuncId = string

  datatype FinetuneError =
    | DuplicateRegime(name: string)       // ValueError in `register_finetune_func`
    | RegimeNotRegistered(name: string)   // the assertion before calling a regime
    | TaskNotFound(task: string)          // ValueError in `get_task_expert`
    | ExpertCount(found: nat)             // the assertion that exactly one expert matches
    | QueryNotSet                         // the assertion on `hf_repo_query`
    | NoSparsityThreshold                 // neither "neo" nor "phi" in the library id
    | UnknownRetriever(name: string)

  /** The module-level `FINETUNE_FUNCTIONS` table. */
  class FinetuneRegistry {
    var functions: map<string, FuncId>

    constructor ()
      ensures functions == map[]
    {
      functions := map[];
    }

    /** `register_finetune_func(name)(func)`: a new name is stored and the function comes
        back unchanged; a name already present raises and the first registration stays. */
    method Register(name: string, func: FuncId) returns (r: Result<FuncId, FinetuneError>)
      modifies this
      ensures name !in old(functions) ==> r == Success(func) && functions == old(functions)[name := func]
      ensures name in old(functions) ==> r == Failure(DuplicateRegime(name)) && functions == old(functions)
    {
      if name in functions {
        return Failure(DuplicateRegime(name));
      }
      functions := functions[name := func];
      r := Success(func);
    }

    /** The regime `run_multitask` runs: the registered one, or a failed assertion. */
    function Lookup(regime: string): (r: Result<FuncId, FinetuneError>)
      reads this
      ensures r.Success? <==> regime in functions
      ensures r.Success? ==> r.value == functions[regime]
      ensures r.Failure? ==> r.error == RegimeNotRegistered(regime)
    {
      if regime in functions then Success(functions[regime]) else Failure(RegimeNotRegistered(regime))
    }
  }

  /** The metadata of a library entry `get_task_expert` looks at. */
  datatype ExpertMetadata = ExpertMetadata(expertDeleted: bool, expertTaskName: string)

  /** The names of the live entries trained on `task`, in library order. */
  function TaskExperts(data: seq<(string, ExpertMetadata)>, task: string): (names: seq<string>)
    ensures |names| <= |data|
  {
    if |data| == 0 then []
    else
      var last := data[|data| - 1];
      TaskExperts(data[..|data| - 1], task)
        + (if !last.1.expertDeleted && last.1.expertTaskName == task then [last.0] else [])
  }

  /** A name is listed exactly when some live entry of that name is trained on the task. */
  lemma {:induction false} TaskExpertsMembers(data: seq<(string, ExpertMetadata)>, task: string, name: string)
    ensures name in TaskExperts(data, task) <==>
      exists i :: 0 <= i < |data| && data[i].0 == name && !data[i].1.expertDeleted && data[i].1.expertTaskName == task
  {
    if |data| > 0 {
      var front := data[..|data| - 1];
      TaskExpertsMembers(front, task, name);
      if name in TaskExperts(front, task) {
        var i :| 0 <= i < |front| && front[i].0 == name && !front[i].1.expertDeleted && front[i].1.expertTaskName == task;
        assert data[i] == front[i];
      }
      forall i | 0 <= i < |front|
        ensures data[i] == front[i]
      {
      }
    }
  }

  /** `get_task_expert`: a task the library does not list raises; otherwise the loop
      collects the live experts trained on the task, and there must be exactly one. */
  method GetTaskExpert(task: string, tasks: set<string>, data: seq<(string, ExpertMetadata)>)
    returns (r: Result<string, FinetuneError>)
    ensures task !in tasks ==> r == Failure(TaskNotFound(task))
    ensures task in tasks && |TaskExperts(data, task)| != 1 ==> r == Failure(ExpertCount(|TaskExperts(data, task)|))
    ensures task in tasks && |TaskExperts(data, task)| == 1 ==> r == Success(TaskExperts(data, task)[0])
  {
    if task !in tasks {
      return Failure(TaskNotFound(task));
    }
    var taskExperts: seq<string> := [];
    var i := 0;
    while i < |data|
      invariant 0 <= i <= |data|
      invariant taskExperts == TaskExperts(data[..i], task)
    {
      var (name, metadata) := data[i];
      assert data[..i + 1][..i] == data[..i];
      if !metadata.expertDeleted && metadata.expertTaskName == task {
        taskExperts := taskExperts + [name];
      }
      i := i + 1;
    }
    assert data[..|data|] == data;
    if |taskExperts| != 1 {
      return Failure(ExpertCount(|taskExperts|));
    }
    r := Success(taskExperts[0]);
  }

  /** The sparsity threshold of the SVD embedding: 0.5 for a "neo" or "phi" library. */
  function SparsityThreshold(hfLibId: string): (r: Result<real, FinetuneError>)
    ensures r.Success? <==> Contains(hfLibId, "neo") || Contains(hfLibId, "phi")
    ensures r.Success? ==> r.value == 0.5
    ensures r.Failure? ==> r.error == NoSparsityThreshold
  {
    if Contains(hfLibId, "neo") then Success(0.5)
    else if Contains(hfLibId, "phi") then Success(0.5)
    else Failure(NoSparsityThreshold)
  }

  datatype Retrieval = RandomRetrieval | SvdRetrieval(queryExpert: string, sparsityThreshold: real)

  /** The checks of `retrieve`, in order: "random" needs nothing; "svdemb" needs a query
      library, the query task's expert in it (`queryExpert`, the outcome of
      `get_task_expert` there) and a sparsity threshold; anything else raises. */
  function RetrievePlan(retrieveWith: string, hfRepoQuery: Option<string>,
                        queryExpert: Result<string, FinetuneError>, hfLibId: string)
    : (r: Result<Retrieval, FinetuneError>)
    ensures retrieveWith == "random" ==> r == Success(RandomRetrieval)
    ensures retrieveWith !in {"random", "svdemb"} ==> r == Failure(UnknownRetriever(retrieveWith))
    ensures retrieveWith == "svdemb" ==>
      (r.Success? <==> hfRepoQuery.Some? && queryExpert.Success? && SparsityThreshold(hfLibId).Success?)
    ensures retrieveWith == "svdemb" && hfRepoQuery.None? ==> r == Failure(QueryNotSet)
    ensures r.Success? && r.value.SvdRetrieval? ==> r.value.sparsityThreshold == 0.5
  {
    if retrieveWith == "random" then Success(RandomRetrieval)
    else if retrieveWith == "svdemb" then
      if hfRepoQuery.None? then Failure(QueryNotSet)
      else if queryExpert.Failure? then Failure(queryExpert.error)
      else
        var t := SparsityThreshold(hfLibId);
        if t.Failure? then Failure(t.error) else Success(SvdRetrieval(queryExpert.value, t.value))
    else Failure(UnknownRetriever(retrieveWith))
  }

  datatype Mode = Min | Max

  /** The early-stopping monitor: Rouge-L when the metric mentions "rouge", else the
      downstream score of the task when it mentions "downstream", else the validation
      loss; scores are maximised, the loss minimised. */
  function MonitorMode(esMetric: string, finetuneTaskName: string): (r: (string, Mode))
    ensures Contains(esMetric, "rouge") ==> r == ("val/rougeL", Max)
    ensures !Contains(esMetric, "rouge") && Contains(esMetric, "downstream") ==>
      r == ("downstream/" + finetuneTaskName, Max)
    ensures !Contains(esMetric, "rouge") && !Contains(esMetric, "downstream") ==> r == ("val/loss", Min)
    ensures r.1 == Min <==> r.0 == "val/loss"
  {
    if Contains(esMetric, "rouge") then ("val/rougeL", Max)
    else if Contains(esMetric, "downstream") then ("downstream/" + finetuneTaskName, Max)
    else ("val/loss", Min)
  }

  /** `val_check_interval`: none when `eval_every` is None or -1; otherwise the number of
      batches between evaluations, clamped to the training batches when it exceeds them,
      and else to `total_steps` when that is set and exceeded. */
  function ValCheckInterval(evalEvery: Option<int>, gradAccum: int, numBatches: nat, totalSteps: int)
    : (r: Option<int>)
    ensures r.None? <==> evalEvery.None? || evalEvery.value == -1
    ensures r.Some? ==> var v := gradAccum * evalEvery.value;
      && r.value <= v && r.value <= numBatches
      && (v > numBatches ==> r.value == numBatches)
      && (v <= numBatches && totalSteps != -1 && v > totalSteps ==> r.value == totalSteps)
      && (v <= numBatches && (totalSteps == -1 || v <= totalSteps) ==> r.value == v)
  {
    if evalEvery.None? || evalEvery.value == -1 then None
    else
      var v := gradAccum * evalEvery.value;
      if v > numBatches then Some(numBatches)
      else if v > totalSteps && totalSteps != -1 then Some(totalSteps)
      else Some(v)
  }

  /** The interval is only clamped to `total_steps` when it fits the batches: an interval
      larger than both is clamped to the batch count, which may exceed `total_steps`. */
  lemma ValCheckIntervalMayExceedTotalSteps(evalEvery: int, gradAccum: int, numBatches: nat, totalSteps: int)
    requires evalEvery != -1 && totalSteps != -1
    ensures ValCheckInterval(Some(evalEvery), gradAccum, numBatches, totalSteps).value > totalSteps
        <==> gradAccum * evalEvery > numBatches && numBatches > totalSteps
  {
  }

  /** The trainer's step limit: one past `total_steps`, or -1 (no limit) when it is -1.
      Lightning reads any -1 as "no limit", so `total_steps` of -2 also removes it. */
  function MaxSteps(totalSteps: int): (r: int)
    ensures totalSteps != -1 ==> r == totalSteps + 1
    ensures r == -1 <==> totalSteps == -1 || totalSteps == -2
  {
    if totalSteps != -1 then totalSteps + 1 else -1
  }

  const AllPipelineTasks: string :=
    "arc-challenge,arc-easy,boolq,hellaswag,humaneval,mbpp,openbookqa,piqa,bbh-fast,winogrande"

  /** The downstream evaluation tasks and whether the evaluation callback is installed:
      "all" expands to the fixed ten-task list; an unset or empty value disables it. */
  function PipelineEvalTasks(tasks: Option<string>): (r: (Option<string>, bool))
    ensures r.1 <==> tasks.Some? && tasks.value != ""
    ensures tasks == Some("all") ==> r.0 == Some(AllPipelineTasks)
    ensures tasks != Some("all") ==> r.0 == tasks
  {
    if tasks.Some? && tasks.value != "" then
      (if tasks.value == "all" then Some(AllPipelineTasks) else tasks, true)
    else (tasks, false)
  }
}
