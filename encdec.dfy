/** The bookkeeping of the encoder-decoder trainer: decoder inputs and language-model
    targets built from token ids, the per-example scores `predict` reports, the
    periodic and final checkpoint saves, the routing information reset after every
    step, and the best validation result and test results kept across evaluations. */
module EncDec {
  import opened Wrappers
  import opened Reduce
  import opened Arith
  import opened EvalOutputs

  // ---------------------------------------------------------------------------
  // Token sequences

  /** `cat([zeros_like(t[:, :1]), t[:, :-1]])` on one row: the row shifted right by one
      position with a 0 in front, at the same length. */
  function ShiftRight(t: seq<int>): (d: seq<int>)
    ensures |d| == |t|
    ensures |t| > 0 ==> d[0] == 0
    ensures forall i :: 1 <= i < |t| ==> d[i] == t[i - 1]
  {
    if |t| == 0 then [] else [0] + t[..|t| - 1]
  }

  /** The decoder input of a training step: the targets shifted right, and every ignored
      label -100 turned into the pad id. */
  function DecoderInput(targets: seq<int>, pad: int): (d: seq<int>)
    ensures |d| == |targets|
    ensures |targets| > 0 ==> d[0] == 0
    ensures forall i :: 1 <= i < |targets| ==> d[i] == if targets[i - 1] == -100 then pad else targets[i - 1]
    ensures pad != -100 ==> -100 !in d
  {
    var s := ShiftRight(targets);
    seq(|s|, i requires 0 <= i < |s| => if s[i] == -100 then pad else s[i])
  }

  /** The language-model target of a choice: 100 is subtracted exactly at the pad
      positions, so with pad id 0 those become the ignored label -100. */
  function LmTarget(choice: seq<int>, pad: int): (t: seq<int>)
    ensures |t| == |choice|
    ensures forall i :: 0 <= i < |choice| ==> (t[i] != choice[i] <==> choice[i] == pad)
    ensures forall i :: 0 <= i < |choice| && choice[i] == pad ==> t[i] == pad - 100
  {
    seq(|choice|, i requires 0 <= i < |choice| => choice[i] - 100 * (if choice[i] == pad then 1 else 0))
  }

  /** Teacher forcing: the decoder sees at position i the token the target holds at
      position i - 1, so apart from the pads the target is the input shifted left. */
  lemma TargetIsNextInput(choice: seq<int>, pad: int, i: nat)
    requires 1 <= i < |choice| && choice[i - 1] != pad
    ensures ShiftRight(choice)[i] == LmTarget(choice, pad)[i - 1]
  {
  }

  // ---------------------------------------------------------------------------
  // Scores of one example

  datatype ScoreError =
    | EmptyChoices       // a reduction over zero answer choices
    | LabelOutOfRange    // `choices_scores[range(bs), labels]` with a bad label
    | ShapeMismatch      // labels and scores disagree on the batch size

  datatype RowScores = RowScores(prediction: nat, predScore: real, scoreGt: real, scoreCand: real)

  /** What `predict` reports for one example with answer-choice scores `row` (lower is
      better) and gold label `gold`: the best choice and its score, the gold choice's
      score, and the best score among the other choices (the gold entry is overwritten
      with the row maximum before the minimum is taken). A label counts from the end when
      negative, as tensor indexing does. */
  function ScoreRow(row: seq<real>, gold: int): (r: Result<RowScores, ScoreError>)
    ensures |row| == 0 ==> r == Failure(EmptyChoices)
    ensures |row| > 0 && !(-(|row| as int) <= gold < |row|) ==> r == Failure(LabelOutOfRange)
    ensures r.Success? ==>
      var n := |row|;
      var k := if gold < 0 then gold + n else gold;
      && 0 <= k < n
      && r.value.prediction < n && r.value.predScore == row[r.value.prediction]
      && (forall j :: 0 <= j < n ==> row[r.value.prediction] <= row[j])
      && (forall j :: 0 <= j < r.value.prediction ==> row[j] > row[r.value.prediction])
      && r.value.scoreGt == row[k]
      && (n == 1 ==> r.value.scoreCand == row[0])
      && (n >= 2 ==> (forall j :: 0 <= j < n && j != k ==> r.value.scoreCand <= row[j]))
      && (n >= 2 ==> exists j :: 0 <= j < n && j != k && r.value.scoreCand == row[j])
  {
    if |row| == 0 then Failure(EmptyChoices)
    else if !(-(|row| as int) <= gold < |row|) then Failure(LabelOutOfRange)
    else
      var n := |row|;
      var k := if gold < 0 then gold + n else gold;
      var p := ArgMin(row);
      var top := Max(row);
      var overwritten := row[k := top];
      var cand := Min(overwritten);
      assert n >= 2 ==> exists j :: 0 <= j < n && j != k && cand == row[j] by {
        if n >= 2 {
          var w := if k == 0 then 1 else 0;
          var m := ArgMin(overwritten);
          if m == k {
            assert overwritten[w] == row[w];
            assert cand == row[w];
          } else {
            assert cand == row[m];
          }
        }
      }
      assert forall j :: 0 <= j < n && j != k ==> overwritten[j] == row[j];
      Success(RowScores(p, row[p], row[k], cand))
  }

  // ---------------------------------------------------------------------------
  // Saving

  /** The save condition at the end of a training step: `save_every` set (not None or 0),
      the step a positive multiple of it; or step 25000, whatever `save_every` is. */
  predicate SaveDue(saveEvery: Option<int>, step: nat) {
    (saveEvery.Some? && saveEvery.value != 0 && step % saveEvery.value == 0 && step > 0) || step == 25000
  }

  /** Every positive multiple of a positive `save_every` triggers a save, and so does step
      25000 without `save_every`; step 0 only when it is 25000, which it is not. */
  lemma SaveDueAtMultiples(s: int, k: nat)
    requires s > 0 && k >= 1
    ensures SaveDue(Some(s), k * s)
    ensures SaveDue(None, 25000) && !SaveDue(Some(s), 0) && !SaveDue(None, k * 25000 + 1)
  {
    ModUnique(k * s, s, k, 0);
    assert k * s >= s;
  }

  /** A saved checkpoint: `finish.pt` or `global_step<step>.pt`, with the global step it
      was taken at. */
  datatype Checkpoint = Checkpoint(finish: bool, step: nat)

  /** An evaluation result: the split it belongs to, the metric values (written here
      without the `<split>/` prefix the source puts on every key), and the step. */
  datatype Metrics = Metrics(split: string, values: map<string, real>, step: nat)

  /** The metric dict built from the dataset's computed metrics: `accuracy` must be there;
      it is copied to `acc_0shot` at step 0, to `acc` otherwise, and to `metric_perf`. */
  function EpochMetrics(computed: map<string, real>, globalStep: nat): (r: Result<map<string, real>, EvalError>)
    ensures r.Failure? <==> "accuracy" !in computed
    ensures r.Success? ==>
      var acc := computed["accuracy"];
      && r.value.Keys == computed.Keys + {"metric_perf", if globalStep == 0 then "acc_0shot" else "acc"}
      && r.value["accuracy"] == acc && r.value["metric_perf"] == acc
      && (globalStep == 0 ==> r.value["acc_0shot"] == acc)
      && (globalStep != 0 ==> r.value["acc"] == acc)
      && (forall k :: k in computed && k !in {"acc", "acc_0shot", "metric_perf"} ==> r.value[k] == computed[k])
  {
    if "accuracy" !in computed then Failure(KeyMissing)
    else
      var acc := computed["accuracy"];
      var m := if globalStep == 0 then computed["acc_0shot" := acc] else computed["acc" := acc];
      Success(m["metric_perf" := acc])
  }

  /** The accumulated columns `Accumulate` builds, as a value. */
  function Accumulated(outputs: seq<Outputs>): (acc: Outputs)
    requires |outputs| > 0
    ensures acc.Keys == outputs[0].Keys
  {
    map k | k in outputs[0].Keys :: ColumnOf(outputs, k)
  }

  /** The deduplicated columns `Deduplicate` builds, as a value. */
  function Deduplicated(acc: Outputs): (d: Outputs)
    requires "idx" in acc
    ensures d.Keys == acc.Keys
  {
    map k | k in acc :: Keep(acc[k], FirstOccurrenceMask(acc["idx"]))
  }

  /** The state of the trainer this model tracks. */
  class EncoderDecoder {
    var lastGlobalStepSaved: int
    var saved: seq<Checkpoint>
    var bestValResult: Option<Metrics>
    var testResults: seq<Metrics>
    var routingInfos: Option<seq<string>>
    /** Every validation result recorded so far, and the position of the best one. */
    ghost var valResults: seq<Metrics>
    ghost var bestIndex: nat

    ghost predicate Valid()
      reads this
    {
      && (|saved| == 0 ==> lastGlobalStepSaved == -1)
      && (|saved| > 0 ==> lastGlobalStepSaved == saved[|saved| - 1].step)
      && (forall i :: 0 < i < |saved| && !saved[i].finish ==> saved[i].step != saved[i - 1].step)
      && (forall i :: 0 <= i < |valResults| ==> "accuracy" in valResults[i].values)
      && (bestValResult.None? <==> |valResults| == 0)
      && (|valResults| > 0 ==>
            && bestIndex < |valResults|
            && bestValResult == Some(valResults[bestIndex])
            && (forall j :: 0 <= j < |valResults| ==>
                  valResults[j].values["accuracy"] <= valResults[bestIndex].values["accuracy"])
            && (forall j :: 0 <= j < bestIndex ==>
                  valResults[j].values["accuracy"] < valResults[bestIndex].values["accuracy"]))
    }

    /** The fields `__init__` sets: nothing saved yet (last saved step -1), no best
        validation result, no test results. */
    constructor ()
      ensures Valid()
      ensures lastGlobalStepSaved == -1 && saved == [] && bestValResult.None? && testResults == []
      ensures routingInfos.None? && valResults == []
    {
      lastGlobalStepSaved := -1;
      saved := [];
      bestValResult := None;
      testResults := [];
      routingInfos := None;
      valResults := [];
      bestIndex := 0;
    }

    /** `save_model`: writes a checkpoint when asked to finish or when the step differs
        from the last saved one, and then remembers the step; otherwise does nothing. */
    method SaveModel(globalStep: nat, finish: bool)
      requires Valid()
      modifies this`lastGlobalStepSaved, this`saved
      ensures Valid()
      ensures finish || old(lastGlobalStepSaved) != globalStep ==>
        saved == old(saved) + [Checkpoint(finish, globalStep)] && lastGlobalStepSaved == globalStep
      ensures !finish && old(lastGlobalStepSaved) == globalStep ==>
        saved == old(saved) && lastGlobalStepSaved == old(lastGlobalStepSaved)
    {
      if finish || lastGlobalStepSaved != globalStep {
        saved := saved + [Checkpoint(finish, globalStep)];
        lastGlobalStepSaved := globalStep;
      }
    }

    /** The end of `training_step`: a save when one is due, then the routing information
        is cleared. */
    method TrainingStepEnd(globalStep: nat, saveEvery: Option<int>)
      requires Valid()
      modifies this`lastGlobalStepSaved, this`saved, this`routingInfos
      ensures Valid() && routingInfos.None?
      ensures SaveDue(saveEvery, globalStep) && old(lastGlobalStepSaved) != globalStep ==>
        saved == old(saved) + [Checkpoint(false, globalStep)]
      ensures !SaveDue(saveEvery, globalStep) || old(lastGlobalStepSaved) == globalStep ==>
        saved == old(saved)
    {
      if SaveDue(saveEvery, globalStep) {
        SaveModel(globalStep, false);
      }
      routingInfos := None;
    }

    /** `on_train_end`: always writes the final checkpoint. */
    method OnTrainEnd(globalStep: nat)
      requires Valid()
      modifies this`lastGlobalStepSaved, this`saved
      ensures Valid()
      ensures saved == old(saved) + [Checkpoint(true, globalStep)] && lastGlobalStepSaved == globalStep
    {
      SaveModel(globalStep, true);
    }

    /** `predict` given the per-choice scores of a batch: routing information is set for
        the batch and cleared at the end, so it stays set when a bad gold raises. */
    method Predict(taskNames: seq<string>, scores: seq<seq<real>>, labels: seq<int>)
      returns (r: Result<seq<RowScores>, ScoreError>)
      modifies this`routingInfos
      ensures |labels| != |scores| ==> r == Failure(ShapeMismatch)
      ensures r.Success? ==> |r.value| == |scores|
      ensures r.Success? ==> forall b :: 0 <= b < |scores| ==> ScoreRow(scores[b], labels[b]) == Success(r.value[b])
      ensures r.Failure? && |labels| == |scores| ==>
        exists b :: 0 <= b < |scores| && ScoreRow(scores[b], labels[b]) == Failure(r.error)
          && forall j :: 0 <= j < b ==> ScoreRow(scores[j], labels[j]).Success?
      ensures routingInfos == if r.Success? then None else Some(taskNames)
    {
      routingInfos := Some(taskNames);
      if |labels| != |scores| {
        return Failure(ShapeMismatch);
      }
      var out: seq<RowScores> := [];
      var b := 0;
      while b < |scores|
        invariant 0 <= b <= |scores| && |out| == b
        invariant forall j :: 0 <= j < b ==> ScoreRow(scores[j], labels[j]) == Success(out[j])
        invariant routingInfos == Some(taskNames)
      {
        var s := ScoreRow(scores[b], labels[b]);
        if s.Failure? {
          return Failure(s.error);
        }
        out := out + [s.value];
        b := b + 1;
      }
      routingInfos := None;
      r := Success(out);
    }

    /** The end of `inference_epoch_end` for one result: the first validation result is
        stored as best and a later one replaces it only with a strictly higher accuracy;
        test results are appended; other splits change nothing. */
    method RecordResult(metrics: Metrics)
      requires Valid() && "accuracy" in metrics.values
      modifies this`bestValResult, this`testResults, this`valResults, this`bestIndex
      ensures Valid()
      ensures metrics.split == "val" ==>
        valResults == old(valResults) + [metrics] && testResults == old(testResults) &&
        bestValResult == (if old(bestValResult).None?
                            || old(bestValResult).value.values["accuracy"] < metrics.values["accuracy"]
                          then Some(metrics) else old(bestValResult))
      ensures metrics.split == "test" ==>
        valResults == old(valResults) &&
        testResults == old(testResults) + [metrics] && bestValResult == old(bestValResult)
      ensures metrics.split != "val" && metrics.split != "test" ==>
        valResults == old(valResults) &&
        testResults == old(testResults) && bestValResult == old(bestValResult)
    {
      if metrics.split == "val" {
        valResults := valResults + [metrics];
        if bestValResult.None? {
          bestValResult := Some(metrics);
          bestIndex := |valResults| - 1;
        } else if bestValResult.value.values["accuracy"] < metrics.values["accuracy"] {
          bestValResult := Some(metrics);
          bestIndex := |valResults| - 1;
        }
      } else if metrics.split == "test" {
        testResults := testResults + [metrics];
      }
    }

    /** `inference_epoch_end` in a single process: accumulate, deduplicate, compute the
        metrics with the dataset's metric function, and record them. */
    method InferenceEpochEnd(outputs: seq<Outputs>, split: string, globalStep: nat,
                             computeMetric: Outputs -> map<string, real>)
      returns (r: Result<Metrics, EvalError>)
      requires Valid()
      modifies this`bestValResult, this`testResults, this`valResults, this`bestIndex
      ensures Valid()
      ensures r.Failure? <==>
        || |outputs| == 0 || !KeysWithin(outputs, outputs[0].Keys) || "idx" !in outputs[0]
        || EpochMetrics(computeMetric(Deduplicated(Accumulated(outputs))), globalStep).Failure?
      ensures r.Success? ==>
        && |outputs| > 0 && "idx" in outputs[0]
        && var d := Deduplicated(Accumulated(outputs));
           var m := EpochMetrics(computeMetric(d), globalStep);
           m.Success? && r.value == Metrics(split, m.value, globalStep)
      ensures r.Success? && split == "val" ==>
        valResults == old(valResults) + [r.value] && testResults == old(testResults) &&
        bestValResult == (if old(bestValResult).None?
                            || old(bestValResult).value.values["accuracy"] < r.value.values["accuracy"]
                          then Some(r.value) else old(bestValResult))
      ensures r.Success? && split == "test" ==>
        valResults == old(valResults) &&
        testResults == old(testResults) + [r.value] && bestValResult == old(bestValResult)
      ensures (r.Success? && split != "val" && split != "test") || r.Failure? ==>
        valResults == old(valResults) &&
        testResults == old(testResults) && bestValResult == old(bestValResult)
    {
      var acc := Accumulate(outputs);
      if acc.Failure? {
        return Failure(acc.error);
      }
      assert acc.value == Accumulated(outputs);
      var dedup := Deduplicate(acc.value);
      if dedup.Failure? {
        return Failure(dedup.error);
      }
      assert dedup.value == Deduplicated(acc.value);
      var values := EpochMetrics(computeMetric(dedup.value), globalStep);
      if values.Failure? {
        return Failure(values.error);
      }
      var metrics := Metrics(split, values.value, globalStep);
      RecordResult(metrics);
      r := Success(metrics);
    }
  }
}
