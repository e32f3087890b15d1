/** The checkpointing callbacks of expert training: one keeps the best Rouge-L score
    seen during training and checkpoints on each improvement, the other keeps the best
    validation loss and its checkpoint. The disk is modelled as the set of checkpoint
    paths that exist; score formatting (`:.004f`) is a function given at construction. */
module Callbacks {
  import opened Wrappers
  import opened Reduce

  /** The files that exist on disk. */
  class Disk {
    var files: set<string>

    constructor (files: set<string>)
      ensures this.files == files
    {
      this.files := files;
    }
  }

  datatype CallbackError = ZeroDivision   // `global_step % eval_every_opt_step` with a zero period

  /** A new value beats the running maximum when there is none yet or it is strictly larger. */
  lemma MaxAppend(s: seq<real>, v: real)
    requires |s| > 0
    ensures Max(s + [v]) == if v > Max(s) then v else Max(s)
  {
    var t := s + [v];
    assert forall j :: 0 <= j < |s| ==> t[j] == s[j];
    assert t[|s|] == v;
    assert Max(s) in t by {
      assert t[..|s|] == s;
    }
  }

  /** A new value beats the running minimum when it is strictly smaller. */
  lemma MinAppend(s: seq<real>, v: real)
    requires |s| > 0
    ensures Min(s + [v]) == if v < Min(s) then v else Min(s)
  {
    var t := s + [v];
    assert forall j :: 0 <= j < |s| ==> t[j] == s[j];
    assert t[|s|] == v;
    assert Min(s) in t by {
      assert t[..|s|] == s;
    }
  }

  class RougeLCallback {
    const name: string
    const outputDir: string
    const evalEveryOptStep: int
    const doCheckpoint: bool
    const formatScore: real -> string
    var bestRouge: Option<real>
    var checkpointNow: bool
    var prevCheckpoint: Option<string>
    /** Every score handed to the `best_loss` setter, in order. */
    ghost var scores: seq<real>

    /** The stored best is the running maximum of the scores seen, and a pending
        checkpoint always has a best score to name its file. */
    ghost predicate Valid()
      reads this
    {
      && (bestRouge.None? <==> |scores| == 0)
      && (|scores| > 0 ==> bestRouge == Some(Max(scores)))
      && (checkpointNow ==> bestRouge.Some?)
      && (prevCheckpoint.Some? ==> doCheckpoint)
    }

    constructor (outputDir: string, name: string, evalEveryOptStep: int, checkpointOracle: bool,
                 formatScore: real -> string)
      ensures Valid()
      ensures this.outputDir == outputDir && this.name == name
      ensures this.evalEveryOptStep == evalEveryOptStep && this.doCheckpoint == checkpointOracle
      ensures this.formatScore == formatScore
      ensures bestRouge.None? && !checkpointNow && prevCheckpoint.None?
    {
      this.name := name;
      this.outputDir := outputDir;
      this.evalEveryOptStep := evalEveryOptStep;
      this.doCheckpoint := checkpointOracle;
      this.formatScore := formatScore;
      bestRouge := None;
      checkpointNow := false;
      prevCheckpoint := None;
      scores := [];
    }

    /** `last_model_path`, `best_model_path` and `last_chkpt` all name the previous checkpoint. */
    function LastModelPath(): Option<string>
      reads this
    {
      prevCheckpoint
    }

    function BestModelPath(): Option<string>
      reads this
    {
      prevCheckpoint
    }

    function LastChkpt(): Option<string>
      reads this
    {
      prevCheckpoint
    }

    /** The file a checkpoint for `score` is written to. */
    function CheckpointPath(score: real): string
      reads this
    {
      outputDir + "/" + name + "/" + formatScore(score) + ".ckpt"
    }

    /** The `best_loss` setter: the first score is taken and arms the checkpoint flag;
        a later one replaces the best and arms the flag only when strictly greater. */
    method SetBestLoss(value: real)
      requires Valid()
      modifies this`bestRouge, this`checkpointNow, this`scores
      ensures Valid()
      ensures scores == old(scores) + [value]
      ensures checkpointNow == (old(checkpointNow) || old(bestRouge).None? || value > old(bestRouge).value)
      ensures old(bestRouge).Some? && value <= old(bestRouge).value ==> bestRouge == old(bestRouge)
      ensures old(bestRouge).None? || value > old(bestRouge).value ==> bestRouge == Some(value)
    {
      if bestRouge.None? {
        bestRouge := Some(value);
        checkpointNow := true;
      } else if value > bestRouge.value {
        checkpointNow := true;
        bestRouge := Some(value);
      }
      if |scores| > 0 {
        MaxAppend(scores, value);
      }
      scores := scores + [value];
    }

    /** The previous path and the files after saving a checkpoint to `path`: the
        previous file is deleted and replaced by the new path when it differs and exists;
        a delete of a missing file raises, is caught, and leaves the previous path. The
        new file always exists afterwards and no other file is created. */
    static function SaveOutcome(prev: Option<string>, files: set<string>, path: string)
      : (r: (Option<string>, set<string>))
      ensures path in r.1 && r.1 - {path} <= files
      ensures r.0 == Some(path) || r.0 == prev
      ensures r.0 == Some(path) && prev.Some? && prev.value != path ==> prev.value !in r.1
    {
      if prev.Some? && prev.value != path then
        if prev.value in files then (Some(path), files + {path} - {prev.value})
        else (prev, files + {path})
      else (Some(path), files + {path})
    }

    /** `maybe_checkpoint_now`: with checkpointing on and the flag armed, save the best
        score's checkpoint and delete the previous file when it differs. A failed save
        (`saveFails`) is caught and changes nothing. The flag is cleared in every case. */
    method MaybeCheckpointNow(disk: Disk, saveFails: bool)
      requires Valid()
      modifies this`checkpointNow, this`prevCheckpoint, disk
      ensures Valid()
      ensures !checkpointNow
      ensures !(doCheckpoint && old(checkpointNow)) || saveFails ==>
        prevCheckpoint == old(prevCheckpoint) && disk.files == old(disk.files)
      ensures doCheckpoint && old(checkpointNow) && !saveFails ==>
        (prevCheckpoint, disk.files) == SaveOutcome(old(prevCheckpoint), old(disk.files), CheckpointPath(bestRouge.value))
    {
      if doCheckpoint && checkpointNow && !saveFails {
        var path := CheckpointPath(bestRouge.value);
        disk.files := disk.files + {path};
        if prevCheckpoint.Some? && path != prevCheckpoint.value {
          if prevCheckpoint.value in disk.files {
            disk.files := disk.files - {prevCheckpoint.value};
            prevCheckpoint := Some(path);
          }
        } else {
          prevCheckpoint := Some(path);
        }
      }
      checkpointNow := false;
    }

    /** `on_before_optimizer_step`: every `eval_every_opt_step` optimiser steps the Rouge-L
        score (`score`, the evaluator's result) goes through the setter and a checkpoint
        is considered. The result says whether the evaluation ran. */
    method OnBeforeOptimizerStep(globalStep: nat, score: real, disk: Disk, saveFails: bool)
      returns (r: Result<bool, CallbackError>)
      requires Valid()
      modifies this`bestRouge, this`checkpointNow, this`scores, this`prevCheckpoint, disk
      ensures Valid()
      ensures evalEveryOptStep == 0 <==> r == Failure(ZeroDivision)
      ensures r.Success? ==> (r.value <==> globalStep % evalEveryOptStep == 0)
      ensures r.Success? && r.value ==> scores == old(scores) + [score] && !checkpointNow
      ensures r.Success? && r.value ==>
        var improved := old(bestRouge).None? || score > old(bestRouge).value;
        && bestRouge == (if improved then Some(score) else old(bestRouge))
        && if doCheckpoint && (old(checkpointNow) || improved) && !saveFails then
             (prevCheckpoint, disk.files)
               == SaveOutcome(old(prevCheckpoint), old(disk.files), CheckpointPath(bestRouge.value))
           else
             prevCheckpoint == old(prevCheckpoint) && disk.files == old(disk.files)
      ensures !(r.Success? && r.value) ==>
        scores == old(scores) && bestRouge == old(bestRouge) && checkpointNow == old(checkpointNow)
        && prevCheckpoint == old(prevCheckpoint) && disk.files == old(disk.files)
    {
      if evalEveryOptStep == 0 {
        return Failure(ZeroDivision);
      }
      if globalStep % evalEveryOptStep == 0 {
        SetBestLoss(score);
        MaybeCheckpointNow(disk, saveFails);
        return Success(true);
      }
      r := Success(false);
    }

    /** `remove_checkpoints`: delete the previous checkpoint when it exists. */
    method RemoveCheckpoints(disk: Disk)
      modifies disk
      ensures prevCheckpoint.Some? ==> disk.files == old(disk.files) - {prevCheckpoint.value}
      ensures prevCheckpoint.None? ==> disk.files == old(disk.files)
    {
      if prevCheckpoint.Some? && prevCheckpoint.value in disk.files {
        disk.files := disk.files - {prevCheckpoint.value};
      }
    }
  }

  /** `os.path.join(a, b)` for a relative `b`. */
  function PathJoin(a: string, b: string): (r: string)
    ensures |a| > 0 && a[|a| - 1] != '/' ==> r == a + "/" + b
  {
    if |a| == 0 || a[|a| - 1] == '/' then a + b else a + "/" + b
  }

  class ValLossCheckpointCallback {
    const outputDir: string
    const formatLoss: real -> string
    const criteria: string
    var bestValLoss: Option<real>
    var prevCheckpoint: Option<string>
    /** Every validation result reported at an epoch end, in order. */
    ghost var losses: seq<real>

    /** The checkpoint file of a loss value. */
    function CheckpointPath(loss: real): string
      reads this
    {
      PathJoin(outputDir, criteria + "/" + formatLoss(loss) + ".ckpt")
    }

    /** The stored best is the running minimum of the results reported, and the last
        checkpoint written is the one for that best. */
    ghost predicate Valid()
      reads this
    {
      && criteria == "val_loss"
      && (bestValLoss.None? <==> |losses| == 0)
      && (|losses| > 0 ==> bestValLoss == Some(Min(losses)))
      && (prevCheckpoint.Some? ==> bestValLoss.Some? && prevCheckpoint.value == CheckpointPath(bestValLoss.value))
    }

    constructor (outputDir: string, formatLoss: real -> string)
      ensures Valid()
      ensures this.outputDir == outputDir && this.formatLoss == formatLoss
      ensures bestValLoss.None? && prevCheckpoint.None?
    {
      this.outputDir := outputDir;
      this.formatLoss := formatLoss;
      criteria := "val_loss";
      bestValLoss := None;
      prevCheckpoint := None;
      losses := [];
    }

    function BestModelPath(): (p: Option<string>)
      reads this
      requires Valid()
      ensures p.Some? ==> bestValLoss.Some? && p.value == CheckpointPath(bestValLoss.value)
    {
      prevCheckpoint
    }

    /** `on_validation_epoch_end` with `save_best_val_model`: a first result, or one
        strictly below the best, becomes the best; its checkpoint is written and the
        previous one is deleted when it is a different file that exists. */
    method OnValidationEpochEnd(bestValResult: real, disk: Disk)
      requires Valid()
      modifies this`bestValLoss, this`prevCheckpoint, this`losses, disk
      ensures Valid()
      ensures losses == old(losses) + [bestValResult]
      ensures old(bestValLoss).Some? && bestValResult >= old(bestValLoss).value ==>
        bestValLoss == old(bestValLoss) && prevCheckpoint == old(prevCheckpoint) && disk.files == old(disk.files)
      ensures old(bestValLoss).None? || bestValResult < old(bestValLoss).value ==>
        var path := CheckpointPath(bestValResult);
        var prev := old(prevCheckpoint);
        && bestValLoss == Some(bestValResult) && prevCheckpoint == Some(path)
        && (if prev.Some? && prev.value != path then disk.files == old(disk.files) - {prev.value} + {path}
            else disk.files == old(disk.files) + {path})
    {
      if |losses| > 0 {
        MinAppend(losses, bestValResult);
      }
      losses := losses + [bestValResult];
      if bestValLoss.None? || bestValResult < bestValLoss.value {
        bestValLoss := Some(bestValResult);
        var path := CheckpointPath(bestValResult);
        if prevCheckpoint.Some? && path != prevCheckpoint.value && prevCheckpoint.value in disk.files {
          disk.files := disk.files - {prevCheckpoint.value};
        }
        disk.files := disk.files + {path};
        prevCheckpoint := Some(path);
      }
    }
  }
}
