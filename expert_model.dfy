/** The expert model of the wiki-experts project: the repository id an expert is pushed
    under, the bookkeeping of which experts are loaded, the left-to-right padding
    conversion and the loss-based expert choice of `expert_choice`, and the routing
    `generate` applies before decoding. */
module ExpertModel {
  import opened Wrappers
  import opened Strings
  import opened Matrices
  import opened Reduce
  import opened Arith

  datatype ExpertError =
    | ModelMismatch(current: string, detected: string)  // ValueError in `load_expert`
    | EmptyStack        // `torch.stack` of no per-expert scores
    | NoExpertToPick    // indexing or sampling from an empty expert list

  // ---------------------------------------------------------------------------
  // Repository id of a pushed expert

  /** The model part of the id: the text after the first "/", empty when there is none. */
  function ModelPart(model: string): (m: string)
    ensures '/' in model ==> var k := |model| - |m| - 1;
      0 <= k && model == model[..k] + "/" + m && '/' !in model[..k]
    ensures '/' !in model ==> m == ""
  {
    var p := Partition(model, '/');
    assert p.found ==> |p.before| == |model| - |p.after| - 1 && p.before == model[..|p.before|];
    p.after
  }

  /** The dataset part of the id: a Hugging Face dataset `owner/name` loses its owner;
      any other dataset name is kept whole. */
  function DatasetPart(dataset: string): (d: string)
    ensures '/' in dataset ==> var k := |dataset| - |d| - 1;
      0 <= k && dataset == dataset[..k] + "/" + d && '/' !in dataset[..k]
    ensures '/' !in dataset ==> d == dataset
  {
    if '/' in dataset then ModelPart(dataset) else dataset
  }

  /** The expert name of the id: the argument when given, else the checkpoint's
      `expert_name`, else its `finetune_task_name`; a name that is still missing is
      formatted as Python prints `None`. */
  function ExpertNameText(argument: Option<string>, hpExpertName: Option<string>,
                          hpFinetuneTaskName: Option<string>): (n: string)
    ensures argument.Some? ==> n == argument.value
    ensures argument.None? && hpExpertName.Some? ==> n == hpExpertName.value
    ensures argument.None? && hpExpertName.None? && hpFinetuneTaskName.Some? ==> n == hpFinetuneTaskName.value
    ensures argument.None? && hpExpertName.None? && hpFinetuneTaskName.None? ==> n == "None"
  {
    var name := if argument.Some? then argument
                else if hpExpertName.Some? then hpExpertName
                else hpFinetuneTaskName;
    if name.Some? then name.value else "None"
  }

  /** A text framed by `head` and `tail` starts with the one and ends with the other. */
  lemma Framed(head: string, mid: string, tail: string)
    ensures var r := head + (mid + tail);
      |r| >= |head| && r[..|head|] == head && EndsWith(r, tail)
  {
    var r := head + (mid + tail);
    assert r[|r| - |tail|..] == tail;
  }

  /** The id `push_expert_to_hub` uploads to. */
  function RepoId(hfUserId: string, argument: Option<string>, hpExpertName: Option<string>,
                  hpFinetuneTaskName: Option<string>, dataset: string, model: string): (r: string)
    ensures |r| >= |hfUserId| + 9 && r[..|hfUserId| + 9] == hfUserId + "/expert__"
    ensures EndsWith(r, "__" + ExpertNameText(argument, hpExpertName, hpFinetuneTaskName))
  {
    var head := hfUserId + "/expert__";
    var mid := ModelPart(model) + ("__" + DatasetPart(dataset));
    var tail := "__" + ExpertNameText(argument, hpExpertName, hpFinetuneTaskName);
    Framed(head, mid, tail);
    head + (mid + tail)
  }

  /** The four fields of a pushed expert's id. */
  datatype RepoFields = RepoFields(user: string, modelPart: string, datasetPart: string, name: string)

  /** Splits `field__rest` at the first "_" of a field that must be followed by "__". */
  function TakeField(s: string): Option<(string, string)>
  {
    var p := Partition(s, '_');
    if p.found && |p.after| > 0 && p.after[0] == '_' then Some((p.before, p.after[1..])) else None
  }

  lemma TakeFieldOf(f: string, rest: string)
    requires '_' !in f
    ensures TakeField(f + ("__" + rest)) == Some((f, rest))
  {
    var tail := "_" + rest;
    assert f + ("__" + rest) == f + ['_'] + tail;
    PartitionAt(f, '_', tail);
    assert tail[1..] == rest;
  }

  /** Reads an id `user/expert__model__dataset__name` back into its fields: the user
      ends at the first "/", the model and dataset fields at their first "_", and the
      name is the rest. */
  function DecodeRepoId(r: string): Option<RepoFields>
  {
    var p := Partition(r, '/');
    if p.found then DecodeRest(p.before, p.after) else None
  }

  /** The part of an id after the user. */
  function DecodeRest(user: string, s: string): Option<RepoFields>
  {
    if |s| < 8 || s[..8] != "expert__" then None
    else
      match TakeField(s[8..])
      case None => None
      case Some((m, afterModel)) =>
        match TakeField(afterModel)
        case None => None
        case Some((d, n)) => Some(RepoFields(user, m, d, n))
  }

  lemma DecodeRestOf(u: string, m: string, d: string, n: string)
    requires '_' !in m && '_' !in d
    ensures DecodeRest(u, "expert__" + (m + ("__" + (d + ("__" + n))))) == Some(RepoFields(u, m, d, n))
  {
    var afterModel := d + ("__" + n);
    var fields := m + ("__" + afterModel);
    var rest := "expert__" + fields;
    assert rest[..8] == "expert__";
    assert rest[8..] == fields;
    TakeFieldOf(m, afterModel);
    TakeFieldOf(d, n);
  }

  /** The text of an id reads back as its fields. */
  lemma DecodeFields(u: string, m: string, d: string, n: string)
    requires '/' !in u && '_' !in m && '_' !in d
    ensures DecodeRepoId((u + "/expert__") + ((m + ("__" + d)) + ("__" + n))) == Some(RepoFields(u, m, d, n))
  {
    var rest := "expert__" + (m + ("__" + (d + ("__" + n))));
    assert (u + "/expert__") + ((m + ("__" + d)) + ("__" + n)) == u + ['/'] + rest;
    PartitionAt(u, '/', rest);
    DecodeRestOf(u, m, d, n);
  }

  /** An id reads back as the user, the model and dataset parts and the expert name it
      was built from, when the user holds no "/" and the two middle parts no "_". */
  lemma RepoIdDecodes(hfUserId: string, argument: Option<string>, hpExpertName: Option<string>,
                      hpFinetuneTaskName: Option<string>, dataset: string, model: string)
    requires '/' !in hfUserId && '_' !in ModelPart(model) && '_' !in DatasetPart(dataset)
    ensures DecodeRepoId(RepoId(hfUserId, argument, hpExpertName, hpFinetuneTaskName, dataset, model))
         == Some(RepoFields(hfUserId, ModelPart(model), DatasetPart(dataset),
                            ExpertNameText(argument, hpExpertName, hpFinetuneTaskName)))
  {
    DecodeFields(hfUserId, ModelPart(model), DatasetPart(dataset),
                 ExpertNameText(argument, hpExpertName, hpFinetuneTaskName));
  }

  /** Two experts pushed under the same id agree on user, model part, dataset part and
      name, when the users hold no "/" and the middle parts no "_". */
  lemma RepoIdInjective(u1: string, a1: Option<string>, e1: Option<string>, f1: Option<string>, ds1: string, m1: string,
                        u2: string, a2: Option<string>, e2: Option<string>, f2: Option<string>, ds2: string, m2: string)
    requires '/' !in u1 && '_' !in ModelPart(m1) && '_' !in DatasetPart(ds1)
    requires '/' !in u2 && '_' !in ModelPart(m2) && '_' !in DatasetPart(ds2)
    requires RepoId(u1, a1, e1, f1, ds1, m1) == RepoId(u2, a2, e2, f2, ds2, m2)
    ensures u1 == u2 && ModelPart(m1) == ModelPart(m2) && DatasetPart(ds1) == DatasetPart(ds2)
    ensures ExpertNameText(a1, e1, f1) == ExpertNameText(a2, e2, f2)
  {
    RepoIdDecodes(u1, a1, e1, f1, ds1, m1);
    RepoIdDecodes(u2, a2, e2, f2, ds2, m2);
  }

  /** A model name without an owner contributes nothing, so the id then holds the
      empty model field `expert____`. */
  lemma RepoIdWithoutOwner(hfUserId: string, argument: Option<string>, dataset: string, model: string)
    requires '/' !in model && '/' !in dataset
    ensures RepoId(hfUserId, argument, None, None, dataset, model)
         == hfUserId + "/expert____" + dataset + "__" + (if argument.Some? then argument.value else "None")
  {
  }

  // ---------------------------------------------------------------------------
  // Left-to-right padding conversion in `expert_choice`

  /** Row `row` rotated right by `shift`: entry j is `row[(j - shift) mod n]`. */
  function RollRow(row: seq<int>, shift: int): (r: seq<int>)
    ensures |r| == |row|
  {
    seq(|row|, j requires 0 <= j < |row| => row[(j - shift) % |row|])
  }

  /** `roll_along(arr, shifts, 1)` on a batch of rows, one shift per row. */
  function RollAlong(arr: seq<seq<int>>, shifts: seq<int>): (r: seq<seq<int>>)
    requires |shifts| == |arr|
    ensures |r| == |arr| && forall i :: 0 <= i < |arr| ==> r[i] == RollRow(arr[i], shifts[i])
  {
    seq(|arr|, i requires 0 <= i < |arr| => RollRow(arr[i], shifts[i]))
  }

  /** Entry `j` of a row rolled by `shift`, with `k = shift mod n`. */
  lemma RollEntry(row: seq<int>, shift: int, j: int)
    requires 0 <= j < |row|
    ensures var n := |row|; var k := shift % n;
      RollRow(row, shift)[j] == if j < k then row[n - k + j] else row[j - k]
  {
    var n := |row|;
    var k := shift % n;
    var sq := shift / n;
    assert shift == sq * n + k;
    if j < k {
      assert j - shift == (-sq - 1) * n + (j - k + n);
      ModUnique(j - shift, n, -sq - 1, j - k + n);
    } else {
      assert j - shift == (-sq) * n + (j - k);
      ModUnique(j - shift, n, -sq, j - k);
    }
  }

  /** Rolling by `shift` moves the last `shift mod n` entries to the front. */
  lemma RollRowIsRotation(row: seq<int>, shift: int)
    requires |row| > 0
    ensures var c := |row| - shift % |row|;
      RollRow(row, shift) == row[c..] + row[..c]
  {
    var n := |row|;
    var k := shift % n;
    var c := n - k;
    var r := RollRow(row, shift);
    forall j | 0 <= j < n
      ensures r[j] == (row[c..] + row[..c])[j]
    {
      RollEntry(row, shift, j);
    }
  }

  /** Every rolled row is a permutation of the input row. */
  lemma RollRowIsPermutation(row: seq<int>, shift: int)
    ensures multiset(RollRow(row, shift)) == multiset(row)
  {
    if |row| > 0 {
      RollRowIsRotation(row, shift);
      var c := |row| - shift % |row|;
      assert row == row[..c] + row[c..];
    }
  }

  /** Number of entries of `row` that are not the pad id (`mask.sum(1)` for one row). */
  function CountNonPad(row: seq<int>, pad: int): (k: nat)
    ensures k <= |row|
  {
    if |row| == 0 then 0 else (if row[0] != pad then 1 else 0) + CountNonPad(row[1..], pad)
  }

  lemma {:induction false} CountNonPadAppend(a: seq<int>, b: seq<int>, pad: int)
    ensures CountNonPad(a + b, pad) == CountNonPad(a, pad) + CountNonPad(b, pad)
  {
    if |a| > 0 {
      assert (a + b)[0] == a[0];
      assert (a + b)[1..] == a[1..] + b;
      CountNonPadAppend(a[1..], b, pad);
    } else {
      assert a + b == b;
    }
  }

  lemma {:induction false} CountNonPadAll(row: seq<int>, pad: int, isPad: bool)
    requires forall j :: 0 <= j < |row| ==> (row[j] == pad) == isPad
    ensures CountNonPad(row, pad) == if isPad then 0 else |row|
  {
    if |row| > 0 {
      CountNonPadAll(row[1..], pad, isPad);
    }
  }

  /** The rows `expert_choice` feeds the model: each row rolled by its number of
      non-pad tokens. */
  function ToRightPadding(ids: seq<seq<int>>, pad: int): (r: seq<seq<int>>)
    ensures |r| == |ids|
  {
    RollAlong(ids, seq(|ids|, i requires 0 <= i < |ids| => CountNonPad(ids[i], pad)))
  }

  /** A left-padded row, its pads first and its tokens after, comes out with its tokens
      first and its pads last. */
  lemma LeftPaddingBecomesRight(pads: seq<int>, toks: seq<int>, pad: int)
    requires forall j :: 0 <= j < |pads| ==> pads[j] == pad
    requires forall j :: 0 <= j < |toks| ==> toks[j] != pad
    ensures ToRightPadding([pads + toks], pad) == [toks + pads]
  {
    var row := pads + toks;
    CountNonPadAppend(pads, toks, pad);
    CountNonPadAll(pads, pad, true);
    CountNonPadAll(toks, pad, false);
    RollByTokenCount(pads, toks);
    var shifts := seq(1, i requires 0 <= i < 1 => CountNonPad([row][i], pad));
    assert shifts == [|toks|];
  }

  /** Rolling a row by the length of its tail brings the tail to the front. */
  lemma RollByTokenCount(pads: seq<int>, toks: seq<int>)
    ensures RollRow(pads + toks, |toks|) == toks + pads
  {
    var row := pads + toks;
    if |row| > 0 {
      RollRowIsRotation(row, |toks|);
      if |pads| == 0 {
        ModUnique(|toks|, |row|, 1, 0);
        assert row[|row|..] + row[..|row|] == toks + pads;
      } else {
        ModUnique(|toks|, |row|, 0, |toks|);
        assert row[|pads|..] == toks && row[..|pads|] == pads;
      }
    }
  }

  /** The labels of one rolled row: every id 0 becomes the ignored label -100. */
  function MaskLabels(row: seq<int>): (labels: seq<int>)
    ensures |labels| == |row|
    ensures forall j :: 0 <= j < |row| ==> (row[j] == 0 ==> labels[j] == -100) && (row[j] != 0 ==> labels[j] == row[j])
  {
    seq(|row|, j requires 0 <= j < |row| => if row[j] == 0 then -100 else row[j])
  }

  /** With pad id 0, the labels of a converted left-padded row are its tokens followed
      by one ignored label per pad. With another pad id the pads keep their id. */
  lemma LeftPaddedLabels(pads: seq<int>, toks: seq<int>, pad: int)
    requires forall j :: 0 <= j < |pads| ==> pads[j] == pad
    requires forall j :: 0 <= j < |toks| ==> toks[j] != pad && toks[j] != 0
    ensures pad == 0 ==> MaskLabels(ToRightPadding([pads + toks], pad)[0]) == toks + seq(|pads|, j => -100)
    ensures pad != 0 ==> MaskLabels(ToRightPadding([pads + toks], pad)[0]) == toks + pads
  {
    LeftPaddingBecomesRight(pads, toks, pad);
    var labels := MaskLabels(toks + pads);
    if pad == 0 {
      assert labels == toks + seq(|pads|, j => -100);
    } else {
      assert labels == toks + pads;
    }
  }

  // ---------------------------------------------------------------------------
  // Expert choice and routing

  /** Expert `k` has the smallest summed loss on example `b`, and no earlier expert ties it. */
  predicate BestExpert(scores: Matrix, b: nat, k: nat)
    requires k < |scores| && forall e :: 0 <= e < |scores| ==> b < |scores[e]|
  {
    (forall j :: 0 <= j < |scores| ==> scores[k][b] <= scores[j][b]) &&
    (forall j :: 0 <= j < k ==> scores[j][b] > scores[k][b])
  }

  /** `scores.argmin(0)`: per example, the expert with the least summed loss, the
      earliest on ties. */
  function ChoiceIndices(scores: Matrix, bs: nat): (ks: seq<nat>)
    requires |scores| > 0 && forall e :: 0 <= e < |scores| ==> |scores[e]| == bs
    ensures |ks| == bs && forall b :: 0 <= b < bs ==> ks[b] < |scores| && BestExpert(scores, b, ks[b])
  {
    seq(bs, b requires 0 <= b < bs => ArgMin(Column(scores, b)))
  }

  /** There is only one best expert per example, so the choice is fixed by the losses. */
  lemma BestExpertUnique(scores: Matrix, b: nat, k1: nat, k2: nat)
    requires k1 < |scores| && k2 < |scores| && forall e :: 0 <= e < |scores| ==> b < |scores[e]|
    requires BestExpert(scores, b, k1) && BestExpert(scores, b, k2)
    ensures k1 == k2
  {
    assert scores[k1][b] <= scores[k2][b] && scores[k2][b] <= scores[k1][b];
  }

  /** The argmin mapped to expert names; no experts means nothing to stack. */
  function ExpertChoice<T>(scores: Matrix, experts: seq<T>, bs: nat): (r: Result<seq<T>, ExpertError>)
    requires |scores| == |experts| && forall e :: 0 <= e < |scores| ==> |scores[e]| == bs
    ensures r.Failure? <==> |experts| == 0
    ensures r.Failure? ==> r.error == EmptyStack
    ensures r.Success? ==> |r.value| == bs && forall b :: 0 <= b < bs ==>
      r.value[b] == experts[ChoiceIndices(scores, bs)[b]]
  {
    if |experts| == 0 then Failure(EmptyStack)
    else
      var ks := ChoiceIndices(scores, bs);
      Success(seq(bs, b requires 0 <= b < bs => experts[ks[b]]))
  }

  /** One call to `add_expert_to_transformer`, which is not part of this model. */
  datatype Addition = Addition(name: Option<string>, action: string, isDefault: bool, loadOnlyLayers: Option<string>)

  /** The `MultiExpertModel` state this model tracks: the base model name and routing mode
      from the hyper-parameters, the list of routable experts, and the experts added to
      the transformer, in order. */
  class MultiExpertModel {
    const hparamsModel: string
    const routing: string
    var experts: seq<Option<string>>
    var additions: seq<Addition>

    constructor (model: string, routing: string)
      ensures hparamsModel == model && this.routing == routing
      ensures experts == [] && additions == []
    {
      hparamsModel := model;
      this.routing := routing;
      experts := [];
      additions := [];
    }

    /** `load_expert`: an expert trained on another base model raises and changes
        nothing; otherwise it is added with the given action, and it becomes routable
        unless the action is "merge". */
    method LoadExpert(expertName: Option<string>, expertModel: string, action: string,
                      isDefault: bool, loadOnlyLayers: Option<string>) returns (err: Option<ExpertError>)
      modifies this`experts, this`additions
      ensures expertModel != hparamsModel ==>
        err == Some(ModelMismatch(hparamsModel, expertModel)) &&
        experts == old(experts) && additions == old(additions)
      ensures expertModel == hparamsModel ==>
        err.None? &&
        additions == old(additions) + [Addition(expertName, action, isDefault, loadOnlyLayers)] &&
        experts == old(experts) + (if action != "merge" then [expertName] else [])
    {
      if hparamsModel != expertModel {
        return Some(ModelMismatch(hparamsModel, expertModel));
      }
      additions := additions + [Addition(expertName, action, isDefault, loadOnlyLayers)];
      if action != "merge" {
        experts := experts + [expertName];
      }
      err := None;
    }

    /** `load_from_graph_string`, given the module names of the parsed graph in order:
        every module is added for routing, only the one named "default" as the default,
        and every name becomes routable in graph order. */
    method LoadFromGraphString(moduleNames: seq<string>)
      modifies this`experts, this`additions
      ensures experts == old(experts) + seq(|moduleNames|, i requires 0 <= i < |moduleNames| => Some(moduleNames[i]))
      ensures additions == old(additions) + seq(|moduleNames|, i requires 0 <= i < |moduleNames| =>
        Addition(Some(moduleNames[i]), "route", moduleNames[i] == "default", None))
    {
      var i := 0;
      while i < |moduleNames|
        invariant 0 <= i <= |moduleNames|
        invariant experts == old(experts) + seq(i, k requires 0 <= k < i => Some(moduleNames[k]))
        invariant additions == old(additions) + seq(i, k requires 0 <= k < i =>
          Addition(Some(moduleNames[k]), "route", moduleNames[k] == "default", None))
      {
        var name := moduleNames[i];
        additions := additions + [Addition(Some(name), "route", name == "default", None)];
        experts := experts + [Some(name)];
        i := i + 1;
      }
    }

    /** The task names `generate` routes a batch of `bs` examples to. "auto" takes the
        expert choice over the per-expert losses `scores`; "first" sends every example
        to the first expert; "random" to the experts `picks` draws; any other mode keeps
        the batch's own task names. */
    function Route(bs: nat, taskNames: seq<Option<string>>, scores: Matrix, picks: seq<nat>)
      : (r: Result<seq<Option<string>>, ExpertError>)
      reads this
      requires |scores| == |experts| && forall e :: 0 <= e < |scores| ==> |scores[e]| == bs
      requires |picks| == bs && forall b :: 0 <= b < bs ==> |experts| == 0 || picks[b] < |experts|
      ensures routing in {"auto", "first", "random"} && r.Success? ==>
        |r.value| == bs && forall b :: 0 <= b < bs ==> r.value[b] in experts
      ensures routing == "auto" ==> r == ExpertChoice(scores, experts, bs)
      ensures routing in {"first", "random"} ==> (r.Failure? <==> bs > 0 && |experts| == 0)
      ensures routing == "first" && r.Success? ==> forall b :: 0 <= b < bs ==> r.value[b] == experts[0]
      ensures routing == "random" && r.Success? ==> forall b :: 0 <= b < bs ==> r.value[b] == experts[picks[b]]
      ensures routing !in {"auto", "first", "random"} ==> r == Success(taskNames)
    {
      if routing == "auto" then ExpertChoice(scores, experts, bs)
      else if routing == "first" || routing == "random" then
        if bs > 0 && |experts| == 0 then Failure(NoExpertToPick)
        else
          var ex := experts;
          if routing == "first" then Success(seq(bs, b requires 0 <= b < bs => ex[0]))
          else Success(seq(bs, b requires 0 <= b < bs => ex[picks[b]]))
      else Success(taskNames)
    }
  }
}
