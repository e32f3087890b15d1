/** The expert-spec parser of the FLAN ranking evaluation: the same `path[=name][:action[*]]`
    grammar as the merging script, with four keyword arguments per spec (no layer
    selection; a third field is ignored). */
module FlanEval {
  import opened Wrappers
  import opened Strings
  import Reduce
  import MergeNevergrad

  type ExpertsToLoad = MergeNevergrad.ExpertsToLoad
  type SpecError = MergeNevergrad.SpecError

  datatype LoadArgs = LoadArgs(expertPath: string, action: string, isDefault: bool, expertName: Option<string>)

  /** The parse of one spec; `found(path)` is the number of expert directories the
      search under `path` returns. */
  function ParseSpec(expert: string, found: string -> nat): Result<LoadArgs, SpecError>
  {
    var options := Split(expert, ':');
    var p := Partition(options[0], '=');
    var name := if p.after == "" then None else Some(p.after);
    var rawAction := if |options| >= 2 then options[1] else "route";
    var isDefault := '*' in rawAction;
    if found(p.before) > 1 && isDefault then Failure(MergeNevergrad.MultipleDefaults)
    else if found(p.before) > 1 && name.Some? then Failure(MergeNevergrad.NameWithWildcard)
    else Success(LoadArgs(p.before, RemoveAll(rawAction, '*'), isDefault, name))
  }

  /** The two parsers accept and reject the same specs, with the same error, and agree
      on every field the evaluation script keeps. */
  lemma AgreesWithMergeParser(expert: string, found: string -> nat)
    ensures var r := ParseSpec(expert, found);
      var m := MergeNevergrad.ParseSpec(expert, found);
      && (r.Success? <==> m.Success?)
      && (r.Failure? ==> r.error == m.error)
      && (r.Success? ==> r.value == LoadArgs(m.value.expertPath, m.value.action, m.value.isDefault, m.value.expertName))
  {
  }

  /** A spec written without layers parses back to its four fields. */
  lemma ParseRender(a: LoadArgs, found: string -> nat)
    requires MergeNevergrad.Spellable(MergeNevergrad.LoadArgs(a.expertPath, a.action, a.isDefault, a.expertName, None))
    ensures ParseSpec(MergeNevergrad.Render(MergeNevergrad.LoadArgs(a.expertPath, a.action, a.isDefault, a.expertName, None)), found) ==
      if found(a.expertPath) > 1 && a.isDefault then Failure(MergeNevergrad.MultipleDefaults)
      else if found(a.expertPath) > 1 && a.expertName.Some? then Failure(MergeNevergrad.NameWithWildcard)
      else Success(a)
  {
    var full := MergeNevergrad.LoadArgs(a.expertPath, a.action, a.isDefault, a.expertName, None);
    MergeNevergrad.ParseRender(full, found);
    AgreesWithMergeParser(MergeNevergrad.Render(full), found);
  }

  /** `ParseSpec` with the directory search fixed. */
  function Parser(found: string -> nat): string -> Result<LoadArgs, SpecError> {
    s => ParseSpec(s, found)
  }

  /** `parse_experts_to_load`: one four-key record per spec, in order, or the error of
      the first spec that fails. */
  method ParseExpertsToLoad(experts: ExpertsToLoad, found: string -> nat)
    returns (r: Result<seq<LoadArgs>, SpecError>)
    ensures r.Success? <==> forall i :: 0 <= i < |MergeNevergrad.AsList(experts)| ==>
      ParseSpec(MergeNevergrad.AsList(experts)[i], found).Success?
    ensures r.Success? ==> |r.value| == |MergeNevergrad.AsList(experts)|
    ensures r.Success? ==> forall i :: 0 <= i < |r.value| ==>
      Success(r.value[i]) == ParseSpec(MergeNevergrad.AsList(experts)[i], found)
    ensures r.Failure? ==> var k := Reduce.FirstFailure(MergeNevergrad.AsList(experts), Parser(found));
      k < |MergeNevergrad.AsList(experts)| && ParseSpec(MergeNevergrad.AsList(experts)[k], found) == Failure(r.error)
  {
    var specs := MergeNevergrad.AsList(experts);
    var kwargs: seq<LoadArgs> := [];
    for i := 0 to |specs|
      invariant |kwargs| == i
      invariant Reduce.ParsedPrefix(specs, Parser(found), kwargs)
    {
      var args := ParseSpec(specs[i], found);
      if args.Failure? {
        Reduce.FirstFailureAt(specs, Parser(found), i);
        return Failure(args.error);
      }
      Reduce.ExtendParsed(specs, Parser(found), kwargs, args.value);
      kwargs := kwargs + [args.value];
    }
    r := Success(kwargs);
  }
}
