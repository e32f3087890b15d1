# mttl core, modelled in Dafny

This project models the deterministic core of mttl, a library and set of training scripts
for mixtures of parameter-efficient "experts" (LoRA adapters and their variants) on top
of transformer models. Each core source file has a Dafny module of its own:

- **Adapters** and **Skilled** (`mttl/models/adapters.py`):
  - the LoRA adapter: its construction checks, zero-initialised `B`, training-step counter, linear warm-up gate and forward pass;
  - the IA3 and LN adapters;
  - the multi-skill SkilledLoRA with index or mixture routing.

  Matrices are `seq<seq<real>>` (module **Matrices**).
- **ModifyModel** (`mttl/models/modifiers/modify_model.py`): the modifier registry, the three-step resolution of the modifier name, and `modify_transformer` with its requires-grad side effect.
- **ExpertModel** (`projects/wiki_experts/expert_model.py`):
  - the hub repository id of a pushed expert;
  - `roll_along` and label masking in `expert_choice`;
  - the argmin expert choice;
  - `MultiExpertModel`'s expert list and the routing in `generate`.
- **EncDec** and **EvalOutputs** (`projects/instr_routing/models/encdec.py`):
  - decoder-input and lm-target construction;
  - the score of the gold and best candidate choice;
  - the save-once-per-step checkpoint logic;
  - accumulation and first-occurrence deduplication of evaluation outputs;
  - best validation result tracking.
- **Finetune** (`projects/wiki_experts/finetune_experts.py`):
  - the fine-tuning regime registry;
  - the unique live task-expert lookup;
  - retriever and sparsity-threshold choice;
  - the trainer settings (monitor, validation interval, step limit, evaluation tasks).
- **MergeNevergrad** and **FlanEval**: the two `parse_experts_to_load` variants of `path=name:action*:layers` specs, and `get_module_graph`.
- **Evolution** (`projects/wiki_experts/src/evolution/parallel_evolution.py`): the `_aiN`/`_vN` version suffixes (`find_ai`, `increase_ai`) and the target repository id.
- **Callbacks** (`projects/wiki_experts/src/callbacks.py`): the Rouge-L and validation-loss checkpoint callbacks as classes. Their best score, checkpoint flag and previous checkpoint path are fields; the checkpoint files are a set of paths.
- **ExpertConfigs** and **RoutingConfigs** (`projects/wiki_experts/src/config.py`, `projects/instr_routing/config.py`): defaults and the batch-size / gradient-accumulation normalisation in `post_init`.

Helper modules:
- **Wrappers**: Option and Result.
- **Strings**: split, partition, find, join, integer text.
- **Reduce**: argmin, min, max.
- **Arith**: Python floor division.

Exceptions become `Failure` values. State changed before the exception is raised stays changed, as in the program. File-system, hub and environment queries become inputs:
- the number of glob matches is a function `found`;
- existing files are a set;
- environment variables are a map or a set of keys;
- a failing `save_checkpoint` is a flag.

## Model

| member | source | states |
|---|---|---|
| Adapters.LayerName | mttl/models/adapters.py:7-14 | reading the layer name fails with the "name not set" error exactly when no name was injected, otherwise yields the injected name |
| Adapters.Warmup | mttl/models/adapters.py:73 | the warm-up gate lies in [0,1], equals steps/10000 below 10000 steps and 1 from then on |
| Adapters.WarmupMonotone | mttl/models/adapters.py:73 | the warm-up gate never decreases as the step count grows |
| Adapters.LoRAAttachError | mttl/models/adapters.py:27-83 | attaching LoRA succeeds iff the layer is linear, the (non-negative) rank is non-zero and the input width is non-zero; a layer without feature sizes fails on the attribute read, rank 0 on `alpha / rank`, a non-linear layer with sizes in `create_for_layer`, a zero input width on `gain / sqrt(in_features)` in `reset_parameters` |
| Adapters.InitialB | mttl/models/adapters.py:81-92 | B is rank×out; it is all zeros unless warm-up or random-B initialisation is requested, in which case it is the random draw |
| Adapters.LoRA.constructor | mttl/models/adapters.py:18-46 | rank, alpha, dropout and flags copied from the config, scaling = alpha/rank, step counter 0, A the random draw, B from `InitialB` |
| Adapters.NewLoRA | mttl/models/adapters.py:18-83 | constructing LoRA fails exactly with `LoRAAttachError`, otherwise yields a fresh valid adapter with the constructor's state |
| Adapters.LoRA.ForwardLinear | mttl/models/adapters.py:65-79 | the step counter rises by one in training mode and is unchanged in eval mode; the output is base(x) + scaling·(x·A)·B, times the gate of the new step count when warm-up is on |
| Adapters.NoOpWithZeroB | mttl/models/adapters.py:87-92 | with B all zeros the LoRA output equals the base layer's output for every input, gate and scaling |
| Adapters.AttachAndForward | mttl/models/adapters.py:65-92 | a freshly attached LoRA without warm-up or random B returns exactly the base output, and fails exactly when attaching fails |
| Adapters.NewIA3 | mttl/models/adapters.py:98-107 | IA3 construction fails with an assertion error iff the layer is not linear; otherwise its scale vector is all ones of the output width |
| Adapters.IA3Forward | mttl/models/adapters.py:109-110 | every output entry is the base output entry times that column's scale |
| Adapters.IA3StartsAsIdentity | mttl/models/adapters.py:102-110 | a fresh IA3 adapter returns exactly the base layer's output |
| Adapters.NewLN | mttl/models/adapters.py:113-123 | LN construction succeeds iff the layer is a norm layer and the split count is non-zero and divides its width, with a distinct error for each failure; B starts as the norm gain |
| Skilled.SkilledAttachError | mttl/models/adapters.py:135-165 | SkilledLoRA attaches iff the layer is linear, the rank, the split count and the input width are all non-zero; LoRA's own checks come first, the zero input width fails in the inherited `reset_parameters` |
| Skilled.SkilledLoRA.constructor | mttl/models/adapters.py:136-165 | factors of shape splits×skills×(in/splits)×rank and splits×skills×rank×(out/splits); every B block is zero unless warm-up or random-B is set |
| Skilled.SkillIndex | mttl/models/adapters.py:174 | a skill index in range, with negative indices counting from the end as tensor indexing does |
| Skilled.ExampleBlocks | mttl/models/adapters.py:172-178 | with index routing, each split of example b uses exactly the block of the skill indexed for b |
| Skilled.SkilledOutput | mttl/models/adapters.py:167-188 | the forward fails with a shape error exactly when the routing does not give each example an in-range skill or a mixture of the factors' shape, or the batch is non-empty and a width does not divide by the split count (an empty batch reshapes to zero elements); otherwise each example's output is base plus its own per-split LoRA product |
| Skilled.EmptyBatchPassesThrough | mttl/models/adapters.py:171-188 | an empty batch with empty index routing yields an empty output, whatever the widths and split count |
| Skilled.SkilledLoRA.Forward | mttl/models/adapters.py:167-188 | the step counter rises by one iff training, and the result is `SkilledOutput` for the new step count |
| Skilled.OneHotRouting | mttl/models/adapters.py:172-178 | turns per-example skill indices into a mixture whose every split puts weight 1 on that skill and 0 elsewhere |
| Skilled.OneHotBlocks | mttl/models/adapters.py:172-178 | the mixture-routed blocks of a one-hot routing are the index-routed blocks |
| Skilled.IndexRoutingIsOneHotMixture | mttl/models/adapters.py:172-178 | routing by skill indices gives the same forward result as routing by the corresponding one-hot mixture |
| Skilled.Gather | mttl/models/adapters.py:174 | `lora_a[:, idx]` keeps the split axis first and picks, for each example, that example's skill block |
| Skilled.IndexedAAsWritten | mttl/models/adapters.py:174-180 | the reshape of the gathered factor as written yields one matrix per example |
| Skilled.IndexReshapeMixesExamples | mttl/models/adapters.py:174-180 | with two splits and two skills, the as-written reshape hands example 0 a block of example 1, unlike the per-example blocks |
| Skilled.IndexedBAsWritten | mttl/models/adapters.py:175-181 | the transpose and reshape of the gathered B factor as written yields one rank×out matrix per example |
| Skilled.IndexReshapeMixesExamplesB | mttl/models/adapters.py:175-181 | with one split, two skills, rank 2 and two examples, the as-written B of example 0 takes row 1 from example 1's skill, unlike the per-example blocks |
| ModifyModel.Or | mttl/models/modifiers/modify_model.py:23-24 | Python `a or b`: `a` when it is a non-empty name, else `b` |
| ModifyModel.GetModifierType | mttl/models/modifiers/modify_model.py:22-25 | the explicit argument if truthy, else the config's `model_modifier` if truthy, else the config type's registered name |
| ModifyModel.ResolvedNameSource | mttl/models/modifiers/modify_model.py:22-25 | a resolved name comes from one of the three sources; an unresolved one means both the argument and the attribute were falsy |
| ModifyModel.Registry.constructor | mttl/models/modifiers/modify_model.py:3-4 | both tables start empty |
| ModifyModel.Registry.Register | mttl/models/modifiers/modify_model.py:7-19 | a duplicate name fails and leaves both tables unchanged; a new one maps name→class, maps the config class→name when given (overwriting), and returns the class |
| ModifyModel.ModifyTransformer | mttl/models/modifiers/modify_model.py:28-64 | the task container becomes empty; every parameter's requires-grad flag is the negation of the config attribute's truthiness; then unmodified, delegated to the registered class, or a not-found error |
| ExpertModel.ExpertNameText | projects/wiki_experts/expert_model.py:39-43 | the expert name is the argument, else the checkpoint's `expert_name`, else its `finetune_task_name`, else the text "None" |
| ExpertModel.DatasetPart | projects/wiki_experts/expert_model.py:45-48 | a dataset with a "/" keeps the text after its first "/", otherwise stays whole |
| ExpertModel.ModelPart | projects/wiki_experts/expert_model.py:51-52 | the model keeps the text after its first "/", or becomes empty when it has none |
| ExpertModel.RepoId | projects/wiki_experts/expert_model.py:39-54 | the repository id starts with the user and `/expert__` and ends with `__` and the expert name |
| ExpertModel.DecodeFields | projects/wiki_experts/expert_model.py:54 | a text `user/expert__model__dataset__name` with no "/" in the user and no "_" in the model and dataset parts reads back as exactly those four fields |
| ExpertModel.RepoIdDecodes | projects/wiki_experts/expert_model.py:39-54 | under the same conditions, the repository id reads back as the user, the model part, the dataset part and the expert name |
| ExpertModel.RepoIdInjective | projects/wiki_experts/expert_model.py:39-54 | under the same conditions, two pushes with the same repository id have the same user, model part, dataset part and expert name |
| ExpertModel.RepoIdWithoutOwner | projects/wiki_experts/expert_model.py:45-54 | for names without "/", the model part is empty and the dataset is kept whole |
| ExpertModel.RollAlong | projects/wiki_experts/expert_model.py:126-132 | rolls each row by its own shift, keeping row count and lengths |
| ExpertModel.RollEntry | projects/wiki_experts/expert_model.py:129-132 | entry j of a rolled row is the input entry at (j − shift) mod n |
| ExpertModel.RollRowIsRotation | projects/wiki_experts/expert_model.py:126-132 | a rolled row is a rotation of the input row |
| ExpertModel.RollRowIsPermutation | projects/wiki_experts/expert_model.py:126-132 | a rolled row is a permutation (same multiset) of the input row |
| ExpertModel.RollByTokenCount | projects/wiki_experts/expert_model.py:134 | rolling pads+tokens by the token count puts the tokens first and the pads last |
| ExpertModel.LeftPaddingBecomesRight | projects/wiki_experts/expert_model.py:123-134 | the padding mask's count drives the roll, so a left-padded row becomes right-padded |
| ExpertModel.MaskLabels | projects/wiki_experts/expert_model.py:135-136 | labels equal the ids except where an id is 0, which becomes -100 |
| ExpertModel.LeftPaddedLabels | projects/wiki_experts/expert_model.py:123-136 | for a left-padded row the labels are its tokens followed by -100s when the pad id is 0, by the pads themselves otherwise |
| ExpertModel.ChoiceIndices | projects/wiki_experts/expert_model.py:166-167 | per example, the index of an expert with minimal loss that no earlier expert ties |
| ExpertModel.BestExpertUnique | projects/wiki_experts/expert_model.py:166-167 | that choice is unique |
| ExpertModel.ExpertChoice | projects/wiki_experts/expert_model.py:166-168 | one expert per example, the earliest with minimal loss; an empty expert list fails |
| ExpertModel.MultiExpertModel.constructor | projects/wiki_experts/expert_model.py:61-63 | the expert list starts empty |
| ExpertModel.MultiExpertModel.LoadExpert | projects/wiki_experts/expert_model.py:82-115 | an expert for another base model fails and changes nothing; otherwise it is added with its action and flags, and its name is appended to `experts` iff the action is not "merge" |
| ExpertModel.MultiExpertModel.LoadFromGraphString | projects/wiki_experts/expert_model.py:65-80 | every module of the graph is added in order with action "route", default iff it is named "default", and appended to `experts` |
| ExpertModel.MultiExpertModel.Route | projects/wiki_experts/expert_model.py:175-190 | "auto" routes by `ExpertChoice`, "first" gives every example `experts[0]`, "random" a drawn expert, any other routing keeps the task names; every routed name is a loaded expert |
| EvalOutputs.ColumnOfAppend | projects/instr_routing/models/encdec.py:473-476 | the column of two runs of batches is the concatenation of their columns |
| EvalOutputs.ExtendBy | projects/instr_routing/models/encdec.py:474-475 | one batch extends the lists: fails iff the batch has a key the accumulator lacks; otherwise the keys are unchanged and each list gains that key's batch list (nothing for a key the batch lacks) |
| EvalOutputs.Accumulate | projects/instr_routing/models/encdec.py:473-476 | fails iff there are no batches or a batch has a key the first lacks; otherwise has the first batch's keys, each the concatenation of that key's lists in batch order |
| EvalOutputs.DedupMask | projects/instr_routing/models/encdec.py:478-483 | the loop's mask is true exactly at the first occurrence of each idx |
| EvalOutputs.KeepAtPositions | projects/instr_routing/models/encdec.py:484-485 | filtering keeps exactly the entries at the mask's true positions, in order |
| EvalOutputs.DedupKeepsEachIndexOnce | projects/instr_routing/models/encdec.py:478-485 | the kept idx list has no duplicates and the same members as before |
| EvalOutputs.Deduplicate | projects/instr_routing/models/encdec.py:478-485 | fails iff "idx" is absent; otherwise every column is filtered with the same first-occurrence mask of idx |
| EncDec.ShiftRight | projects/instr_routing/models/encdec.py:118-121 | same length, a leading 0, then the input shifted right by one |
| EncDec.DecoderInput | projects/instr_routing/models/encdec.py:208-213 | the shifted targets with -100 replaced by the pad id, so no -100 remains when the pad id is not -100 |
| EncDec.LmTarget | projects/instr_routing/models/encdec.py:123-126 | an entry changes exactly where it equals the pad id, becoming pad − 100 |
| EncDec.TargetIsNextInput | projects/instr_routing/models/encdec.py:118-126 | where the previous token is not padding, the decoder input at i is the lm target at i − 1 |
| EncDec.ScoreRow | projects/instr_routing/models/encdec.py:419-423 | the prediction is the earliest minimal score, score_gt the label's score (negative labels count from the end), score_cand the minimum over the other choices; errors for an empty row or a label out of range |
| EncDec.SaveDueAtMultiples | projects/instr_routing/models/encdec.py:237-242 | a save is due at every positive multiple of `save_every` and at step 25000, never at step 0 |
| EncDec.EpochMetrics | projects/instr_routing/models/encdec.py:494-502 | fails iff "accuracy" is missing; otherwise adds metric_perf and acc_0shot (step 0) or acc, all equal to accuracy, keeping the other metrics |
| EncDec.EncoderDecoder.constructor | projects/instr_routing/models/encdec.py:62-64 | no step saved (-1), no best result, no test results |
| EncDec.EncoderDecoder.SaveModel | projects/instr_routing/models/encdec.py:261-271 | a checkpoint is written and the step recorded iff `finish` or the step differs from the last saved one |
| EncDec.EncoderDecoder.TrainingStepEnd | projects/instr_routing/models/encdec.py:237-245 | a periodic save happens iff it is due and the step is not already saved; routing infos are reset |
| EncDec.EncoderDecoder.OnTrainEnd | projects/instr_routing/models/encdec.py:273-274 | always writes the finish checkpoint |
| EncDec.EncoderDecoder.Predict | projects/instr_routing/models/encdec.py:419-440 | each example's outputs are `ScoreRow` of its scores; a failure is the error of a failing row all of whose predecessors succeed; routing infos are reset iff the step completes |
| EncDec.EncoderDecoder.RecordResult | projects/instr_routing/models/encdec.py:520-527 | a val result is appended and becomes best when first or strictly more accurate; a test result is appended; other splits change nothing |
| EncDec.EncoderDecoder.InferenceEpochEnd | projects/instr_routing/models/encdec.py:471-527 | the metrics are computed on the deduplicated accumulation and recorded as `RecordResult` records them for the split; empty or inconsistent outputs or a missing idx fail and leave every result list unchanged |
| Finetune.FinetuneRegistry.constructor | projects/wiki_experts/finetune_experts.py:68 | the registry starts empty |
| Finetune.FinetuneRegistry.Register | projects/wiki_experts/finetune_experts.py:76-84 | a new name is stored and the function returned; a duplicate fails without overwriting |
| Finetune.FinetuneRegistry.Lookup | projects/wiki_experts/finetune_experts.py:530-531 | the regime runs iff it is registered, and runs the registered function |
| Finetune.TaskExpertsMembers | projects/wiki_experts/finetune_experts.py:91-96 | a name is collected iff some entry with that name is not deleted and has that task |
| Finetune.GetTaskExpert | projects/wiki_experts/finetune_experts.py:87-99 | an unknown task fails; otherwise exactly one live expert of the task is returned, and any other count fails with that count |
| Finetune.SparsityThreshold | projects/wiki_experts/finetune_experts.py:158-163 | 0.5 iff the library id contains "neo" or "phi", else an error |
| Finetune.RetrievePlan | projects/wiki_experts/finetune_experts.py:130-177 | "random" retrieves at random; "svdemb" needs a query repository and a threshold; any other retriever fails |
| Finetune.MonitorMode | projects/wiki_experts/finetune_experts.py:560-569 | rouge → (val/rougeL, max); else downstream → (downstream/task, max); else (val/loss, min) |
| Finetune.ValCheckInterval | projects/wiki_experts/finetune_experts.py:614-622 | None iff eval_every is None or -1; otherwise grad_accum·eval_every clamped to the batch count, or else to total_steps when that is not -1 |
| Finetune.ValCheckIntervalMayExceedTotalSteps | projects/wiki_experts/finetune_experts.py:614-622 | with eval_every and total_steps both set, the interval exceeds total_steps exactly when grad_accum·eval_every exceeds the batch count and the batch count exceeds total_steps |
| Finetune.MaxSteps | projects/wiki_experts/finetune_experts.py:631 | total_steps + 1, or -1 when total_steps is -1 (so -1 also for total_steps -2) |
| Finetune.PipelineEvalTasks | projects/wiki_experts/finetune_experts.py:602-608 | the callback is enabled iff tasks are non-empty; "all" expands to the ten-task list |
| MergeNevergrad.AsList | projects/wiki_experts/mmlu_exper_merge_nevergrad.py:91-92 | a single spec is wrapped in a one-element list |
| MergeNevergrad.ParseSpecShape | projects/wiki_experts/mmlu_exper_merge_nevergrad.py:94-124 | path and name contain no ":", the path no "="; no ":" means action "route" with no layers; the action has no "*"; a failure needs several matches |
| MergeNevergrad.ParseRender | projects/wiki_experts/mmlu_exper_merge_nevergrad.py:94-134 | parsing the rendered spec gives back the same arguments, except the two wildcard errors when several paths match |
| MergeNevergrad.ParseExpertsToLoad | projects/wiki_experts/mmlu_exper_merge_nevergrad.py:82-135 | succeeds iff every spec parses, with one result per spec in order; otherwise fails with the first failing spec's error |
| MergeNevergrad.BuildGraph | projects/wiki_experts/mmlu_exper_merge_nevergrad.py:52-58 | the string is the concatenation of the mappings in order; the map has exactly the subjects as keys, each mapped to its own mapping |
| MergeNevergrad.GetModuleGraph | projects/wiki_experts/mmlu_exper_merge_nevergrad.py:51-79 | a mapping gives the concatenation of its values and an identical key→value map; other names pass through, except SUB_10 |
| FlanEval.AgreesWithMergeParser | projects/wiki_experts/src/ranker/flan_eval_experts.py:28-53 | this parser yields the other parser's fields without the layers field, and the same errors |
| FlanEval.ParseRender | projects/wiki_experts/src/ranker/flan_eval_experts.py:28-62 | parsing the rendered spec gives back the four fields, except the wildcard errors |
| FlanEval.ParseExpertsToLoad | projects/wiki_experts/src/ranker/flan_eval_experts.py:16-63 | as in MergeNevergrad: all parse and results are in order, else the first failing spec's error |
| Evolution.MatchTarget | projects/wiki_experts/src/evolution/parallel_evolution.py:44 | the text `$` anchors at: the string without one final newline |
| Evolution.FindAiOfSuffix | projects/wiki_experts/src/evolution/parallel_evolution.py:43-45 | `find_ai` of `x_ai<n>` is n |
| Evolution.FindAiOfVersion | projects/wiki_experts/src/evolution/parallel_evolution.py:43-45 | `find_ai` of `x_v<n>` is 0 |
| Evolution.FindAiZeroPadded | projects/wiki_experts/src/evolution/parallel_evolution.py:43-45 | leading zeros are read through: `x_ai0<n>` gives n |
| Evolution.IncreaseAiNumbers | projects/wiki_experts/src/evolution/parallel_evolution.py:48-51 | a name without a suffix number becomes one with `find_ai` equal to 1 |
| Evolution.IncreaseAiVersions | projects/wiki_experts/src/evolution/parallel_evolution.py:48-54 | a name with a suffix number becomes one with `find_ai` equal to 0 |
| Evolution.IncreaseAiOfCleanName | projects/wiki_experts/src/evolution/parallel_evolution.py:52-54 | `x_ai<n>`, with no other "_ai" in x, becomes `x_v<n+1>` |
| Evolution.IncreaseAiZeroPadded | projects/wiki_experts/src/evolution/parallel_evolution.py:52-54 | `x_ai0<n>` keeps the whole string before `_v<n+1>` because `_ai<n>` never occurs literally |
| Evolution.RepoIdFor | projects/wiki_experts/src/evolution/parallel_evolution.py:68-69 | the id is the user, a "/", then one "/"-free segment ending in the name's last segment (plus "_debug" in debug mode) |
| Evolution.RepoIdForAppend | projects/wiki_experts/src/evolution/parallel_evolution.py:67-69 | appending a "/"-free suffix to the name appends it to the id |
| Evolution.ToRepoIdNumbers | projects/wiki_experts/src/evolution/parallel_evolution.py:36-69 | outside debug mode, a name without a suffix number yields an id whose `find_ai` is 1 |
| Evolution.ToRepoIdVersions | projects/wiki_experts/src/evolution/parallel_evolution.py:36-69 | outside debug mode, a name with a suffix number yields an id whose `find_ai` is 0 |
| Callbacks.RougeLCallback.constructor | projects/wiki_experts/src/callbacks.py:18-36 | no best score, flag clear, no previous checkpoint |
| Callbacks.MaxAppend | projects/wiki_experts/src/callbacks.py:54-62 | the maximum after a new score is that score if it is strictly greater, else the old maximum |
| Callbacks.RougeLCallback.SetBestLoss | projects/wiki_experts/src/callbacks.py:54-62 | the first score, and later ones only when strictly greater, become best and arm the flag; the best stays the running maximum |
| Callbacks.RougeLCallback.SaveOutcome | projects/wiki_experts/src/callbacks.py:82-89 | after a save the new checkpoint exists and no other file is created; the previous path becomes the new one or stays; when it moves to a different path the old file is gone |
| Callbacks.RougeLCallback.MaybeCheckpointNow | projects/wiki_experts/src/callbacks.py:76-92 | saves only when enabled and armed, with the previous path and files given by `SaveOutcome`; a caught save failure changes nothing; the flag is always cleared |
| Callbacks.RougeLCallback.OnBeforeOptimizerStep | projects/wiki_experts/src/callbacks.py:64-74 | evaluates iff the step is a multiple of `eval_every_opt_step` (modulo by zero fails); an evaluation records the score, makes it best when first or strictly greater, and saves per `SaveOutcome` when checkpointing is on and the flag was armed or the score improved; otherwise nothing changes |
| Callbacks.RougeLCallback.RemoveCheckpoints | projects/wiki_experts/src/callbacks.py:105-107 | the previous checkpoint file, if any, is gone afterwards; nothing else is removed |
| Callbacks.PathJoin | projects/wiki_experts/src/callbacks.py:135 | joins with one "/" when the directory does not end in one |
| Callbacks.ValLossCheckpointCallback.constructor | projects/wiki_experts/src/callbacks.py:111-116 | no best loss, no previous checkpoint, criteria "val_loss" |
| Callbacks.ValLossCheckpointCallback.BestModelPath | projects/wiki_experts/src/callbacks.py:118-120 | the path, when set, is the checkpoint of the best loss |
| Callbacks.MinAppend | projects/wiki_experts/src/callbacks.py:125-126 | the minimum after a new loss is that loss if it is strictly smaller, else the old minimum |
| Callbacks.ValLossCheckpointCallback.OnValidationEpochEnd | projects/wiki_experts/src/callbacks.py:122-143 | a first or strictly smaller loss becomes best and its checkpoint is written, removing a different previous one; otherwise nothing changes; the best stays the running minimum |
| ExpertConfigs.DefaultExpertInfo | projects/wiki_experts/src/config.py:6-14 | all three fields default to None |
| ExpertConfigs.GetEnv | projects/wiki_experts/src/config.py:44-45 | the variable's value when set, else the default |
| ExpertConfigs.ExpertConfig.constructor | projects/wiki_experts/src/config.py:18-45 | every default of `_set_defaults`, the directories read from the environment |
| Arith.FloorDiv | projects/wiki_experts/src/config.py:52-54 | Python `//`: the quotient rounded toward negative infinity, for either sign of the divisor |
| ExpertConfigs.ExpertConfig.PostInit | projects/wiki_experts/src/config.py:47-55 | the micro size defaults to the batch size; accumulation = old batch // micro, then batch = micro; a zero micro size fails; a defaulted micro size gives accumulation 1 and an unchanged batch |
| RoutingConfigs.RoutingConfig.constructor | projects/instr_routing/config.py:6-44 | every default of `_set_defaults` (micro size 4, lora_alpha 16, router temperatures 1.0, …) |
| RoutingConfigs.RoutingConfig.PostInit | projects/instr_routing/config.py:46-57 | the MMLU check, then the NI check, fail before any field changes; otherwise accumulation = old batch // micro and batch = micro |

## Left out

- Random initialisation (Kaiming-uniform A and random B) is an arbitrary matrix passed in by the caller; the random expert choice of routing "random" is a list of drawn indices.
- dtype up- and down-casting, float32 arithmetic and LN's variance/sqrt normalisation: the model computes over mathematical reals, so LN's forward pass is not modelled.
- Adapters.LoRAAttachError: the rank is a natural number, so a negative `lora_rank` is not modelled. The source takes it from a plain config integer and `torch.empty` rejects it with a RuntimeError (mttl/models/adapters.py:50-51). "Succeeds iff the rank is non-zero" covers non-negative ranks only.
- Skilled.SkilledAttachError: the rank, the split count and the skill count are natural numbers, so a negative value is not modelled. `torch.empty` rejects one with a RuntimeError in `create_for_layer` (mttl/models/adapters.py:147-162).
- Skilled.SkilledOutput: the shape check is stricter than torch's. The model fails unless the routing has one entry per example. torch only needs the element counts of the two reshapes to agree (mttl/models/adapters.py:180-181). With widths the split count does not divide, a routing longer or shorter than a non-empty batch can still produce an output in the source, for example n_splits 2, in = out = 3, rank 1, a batch of 2 and indices [0, 1, 0]. The model reports ShapeMismatch there. An out-of-range skill index (IndexError in the source) and a wrong-shaped mixture (a RuntimeError from `einsum`) are also both reported as ShapeMismatch.
- Dropout: the LoRA dropout rate is stored but never applied in the source's forward pass either.
- Neural-network numerics (model forward passes, cross-entropy, logits, `length_norm`) are not modelled: per-choice scores and per-expert losses are inputs.
- EncDec.EncoderDecoder.InferenceEpochEnd: the metric computation is a function parameter; the means of the `log.*` columns and the `split/` key prefix are not modelled. The stored record (`Metrics(split, values, step)`) also lacks the `epoch`, `metric` and `seed` entries the source adds at encdec.py:507-511, because the epoch counter, the dataset reader and the hyper-parameters are not part of this model.
- EncDec.EncoderDecoder.Predict: only the score/prediction bookkeeping of `predict` is modelled.
- The dead `split_option_at_inference` branch of `predict` is left out, because the flag is fixed to false.
- `torch.distributed` gathering and rank checks (concurrency) are left out; the model is the single-process path.
- The roll in `roll_along` is over dimension 1 of a 2-D tensor only, as `expert_choice` uses it.
- Files, the hub and the environment are inputs rather than effects:
  - glob results are a count function;
  - `save_checkpoint` is adding a path to a set, and its failure in the Rouge-L callback is a flag;
  - `torch.load`, hub push, `create_repo`, logging and printing are not modelled.
- Callbacks.ValLossCheckpointCallback.OnValidationEpochEnd: a failing `save_checkpoint` (an exception the source does not catch) is not modelled.
- Formatting scores with `:.004f` is a function parameter (`formatScore`, `formatLoss`).
- MergeNevergrad.GetModuleGraph: the SUB_10 branch, which scans checkpoint directories on disk, returns a marker instead of the scanned mapping.
- Finetune.RetrievePlan: the expert library, retrievers and SVD transform are not part of this model; only the branch choice and the errors are.
- The Rouge-callback construction failure in `train_module` (the raise when stopping on Rouge) is not modelled; it depends on loading a data module.
- Evolution.FindAi: the regex `\d` also matches non-ASCII Unicode digits; the model accepts ASCII digits only.
- Evolution.ToRepoId: the module-level DEBUG flag is derived from whether AMLT_OUTPUT_DIR is among the environment keys passed in.
- ExpertConfigs.ExpertConfig.constructor and RoutingConfigs.RoutingConfig.constructor: the base `Config` (mttl.config) is not part of this model. Its `train_batch_size` and `gradient_accumulation_steps` are constructor inputs.
- Python-level aliasing (`self.model` rebinding, the module objects behind names) is not modelled; experts are identified by name.

## Findings

| source | as written | input that shows it | evidently intended | confidence | as-written member | corrected member |
|---|---|---|---|---|---|---|
| mttl/models/adapters.py:174-181 | with 1-D (index) routing, `A = lora_a[:, idx]` has shape (splits, batch, in/splits, rank) and is reshaped straight to (batch, in, rank), so the batch and split axes are interleaved; `B = lora_b[:, idx]` after `transpose(1, 2)` has shape (splits, rank, batch, out/splits), so its reshape mixes examples even with one split | A: n_splits = 2, n_skills = 2, in = 2, rank = 1, indices [0, 1]: example 0 receives split 0 of skill 0 and split 0 of skill 1 instead of both splits of skill 0. B: n_splits = 1, n_skills = 2, rank = 2, out = 1, indices [0, 1]: example 0's B is row 0 of skill 0 and row 0 of skill 1 instead of both rows of skill 0 | each example uses all splits of its own skill, exactly as the mixture path does with a one-hot weight | not executed | Skilled.IndexedAAsWritten, Skilled.IndexReshapeMixesExamples, Skilled.IndexedBAsWritten, Skilled.IndexReshapeMixesExamplesB | Skilled.ExampleBlocks, Skilled.SkilledOutput, Skilled.IndexRoutingIsOneHotMixture |
