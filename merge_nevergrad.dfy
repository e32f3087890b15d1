/** The expert-spec parser and module-graph builder of the MMLU merging script.
    A spec has the shape `path[=name][:action[*][:layers]]`; `*` marks the default
    expert. The directory search under a path is an input: `found(path)` is the number
    of expert directories the search returns there. */
module MergeNevergrad {
  import opened Wrappers
  import opened Strings
  import Reduce

  /** `experts_to_load` is either a single spec or a list of them. */
  datatype ExpertsToLoad = One(spec: string) | Many(specs: seq<string>)

  /** A non-list argument is wrapped in a one-element list. */
  function AsList(e: ExpertsToLoad): (specs: seq<string>)
    ensures e.One? ==> specs == [e.spec]
    ensures e.Many? ==> specs == e.specs
  {
    match e
    case One(s) => [s]
    case Many(l) => l
  }

  /** The keyword arguments one spec produces for `load_expert`. */
  datatype LoadArgs = LoadArgs(
    expertPath: string,
    action: string,
    isDefault: bool,
    expertName: Option<string>,
    loadOnlyLayers: Option<string>)

  datatype SpecError =
    | MultipleDefaults   // a `*` on a path that matches several experts
    | NameWithWildcard   // a `=name` on a path that matches several experts

  /** The parse of one spec: the path before the first ":" and the first "=", the
      name after that "=" (none when empty), the action (default "route") with its
      `*` marks removed, and the optional third field as the layers to load. */
  function ParseSpec(expert: string, found: string -> nat): Result<LoadArgs, SpecError>
  {
    var options := Split(expert, ':');
    var p := Partition(options[0], '=');
    var name := if p.after == "" then None else Some(p.after);
    var rawAction := if |options| >= 2 then options[1] else "route";
    var layers := if |options| >= 3 then Some(options[2]) else None;
    var isDefault := '*' in rawAction;
    if found(p.before) > 1 && isDefault then Failure(MultipleDefaults)
    else if found(p.before) > 1 && name.Some? then Failure(NameWithWildcard)
    else Success(LoadArgs(p.before, RemoveAll(rawAction, '*'), isDefault, name, layers))
  }

  /** What a parse guarantees: no field of a successful parse holds its own
      delimiter, a spec without ":" takes the default action, and a path that matches
      several experts is never loaded as a default or under a name. */
  lemma ParseSpecShape(expert: string, found: string -> nat)
    ensures var r := ParseSpec(expert, found);
      && (r.Success? ==> ':' !in r.value.expertPath && '=' !in r.value.expertPath)
      && (r.Success? ==> ':' !in r.value.action && '*' !in r.value.action)
      && (r.Success? && r.value.expertName.Some? ==>
            r.value.expertName.value != "" && ':' !in r.value.expertName.value)
      && (r.Success? && r.value.loadOnlyLayers.Some? ==> ':' !in r.value.loadOnlyLayers.value)
      && (':' !in expert && r.Success? ==>
            r.value.action == "route" && !r.value.isDefault && r.value.loadOnlyLayers.None?)
      && (r.Failure? ==> found(Partition(Split(expert, ':')[0], '=').before) > 1)
      && (r.Success? && found(r.value.expertPath) > 1 ==> !r.value.isDefault && r.value.expertName.None?)
  {
    SplitParts(expert, ':');
    var options := Split(expert, ':');
    assert ':' !in options[0];
    var p := Partition(options[0], '=');
    assert ':' !in p.before && ':' !in p.after by {
      assert p.found ==> options[0] == p.before + ['='] + p.after;
    }
    assert |options| >= 2 ==> ':' !in options[1];
    assert |options| >= 3 ==> ':' !in options[2];
    var rawAction := if |options| >= 2 then options[1] else "route";
    RemoveAllKeeps(rawAction, '*', ':');
  }

  /** The fields of `LoadArgs` a spec can spell out. */
  predicate Spellable(a: LoadArgs) {
    && ':' !in a.expertPath && '=' !in a.expertPath
    && (a.expertName.Some? ==> a.expertName.value != "" && ':' !in a.expertName.value)
    && ':' !in a.action && '*' !in a.action
    && (a.loadOnlyLayers.Some? ==> ':' !in a.loadOnlyLayers.value)
  }

  /** The ":"-separated fields of the spec that asks for `a`. */
  function Head(a: LoadArgs): string {
    a.expertPath + (if a.expertName.Some? then "=" + a.expertName.value else "")
  }

  function ActionField(a: LoadArgs): string {
    a.action + (if a.isDefault then "*" else "")
  }

  function Fields(a: LoadArgs): seq<string> {
    [Head(a), ActionField(a)] + (if a.loadOnlyLayers.Some? then [a.loadOnlyLayers.value] else [])
  }

  /** The spec that asks for `a`: `path[=name]:action[*][:layers]`. */
  function Render(a: LoadArgs): string {
    Join(Fields(a), ':')
  }

  lemma SplitRender(a: LoadArgs)
    requires Spellable(a)
    ensures Split(Render(a), ':') == Fields(a)
  {
    var parts := Fields(a);
    assert ':' !in Head(a);
    assert ':' !in ActionField(a);
    SplitJoin(parts, ':');
  }

  lemma PartitionHead(a: LoadArgs)
    requires Spellable(a)
    ensures Partition(Head(a), '=') ==
      if a.expertName.Some? then Parts(a.expertPath, true, a.expertName.value) else Parts(a.expertPath, false, "")
  {
    if a.expertName.Some? {
      PartitionAt(a.expertPath, '=', a.expertName.value);
      assert Head(a) == a.expertPath + ['='] + a.expertName.value;
    }
  }

  lemma StripAction(a: LoadArgs)
    requires Spellable(a)
    ensures RemoveAll(ActionField(a), '*') == a.action
    ensures '*' in ActionField(a) <==> a.isDefault
  {
    if a.isDefault {
      RemoveTrailing(a.action, '*');
      assert ActionField(a) == a.action + ['*'];
      assert ActionField(a)[|a.action|] == '*';
    }
  }

  /** Parsing a rendered spec gives back its arguments, unless the path matches several
      experts and the spec marks a default or names the expert. */
  lemma ParseRender(a: LoadArgs, found: string -> nat)
    requires Spellable(a)
    ensures ParseSpec(Render(a), found) ==
      if found(a.expertPath) > 1 && a.isDefault then Failure(MultipleDefaults)
      else if found(a.expertPath) > 1 && a.expertName.Some? then Failure(NameWithWildcard)
      else Success(a)
  {
    SplitRender(a);
    PartitionHead(a);
    StripAction(a);
  }

  /** `ParseSpec` with the directory search fixed. */
  function Parser(found: string -> nat): string -> Result<LoadArgs, SpecError> {
    s => ParseSpec(s, found)
  }

  /** `parse_experts_to_load`: one `LoadArgs` per spec, in order, or the error of the
      first spec that fails. */
  method ParseExpertsToLoad(experts: ExpertsToLoad, found: string -> nat)
    returns (r: Result<seq<LoadArgs>, SpecError>)
    ensures r.Success? <==> forall i :: 0 <= i < |AsList(experts)| ==> ParseSpec(AsList(experts)[i], found).Success?
    ensures r.Success? ==> |r.value| == |AsList(experts)|
    ensures r.Success? ==> forall i :: 0 <= i < |r.value| ==> Success(r.value[i]) == ParseSpec(AsList(experts)[i], found)
    ensures r.Failure? ==> var k := Reduce.FirstFailure(AsList(experts), Parser(found));
      k < |AsList(experts)| && ParseSpec(AsList(experts)[k], found) == Failure(r.error)
  {
    var specs := AsList(experts);
    var kwargs: seq<LoadArgs> := [];
    for i := 0 to |specs|
      invariant |kwargs| == i
      invariant Reduce.ParsedPrefix(specs, Parser(found), kwargs)
    {
      var args := ParseSpec(specs[i], found);
      if args.Failure? {
        Reduce.FirstFailureAt(specs, Parser(found), i);
        return Failure(args.error);
      }
      Reduce.ExtendParsed(specs, Parser(found), kwargs, args.value);
      kwargs := kwargs + [args.value];
    }
    r := Success(kwargs);
  }

  /** The `module_graph` argument: a subject-to-mapping dictionary, or a name. */
  datatype GraphArg = Mapping(items: seq<(string, string)>) | Named(name: string)

  datatype ModuleGraph =
    | Built(s: string, tasksToModule: map<string, string>)
    | Unchanged(name: string)
    | SubjectCheckpoints(name: string)   // the checkpoint-scanning branch for "SUB_10"

  /** A dictionary's keys are distinct. */
  predicate DistinctKeys(items: seq<(string, string)>) {
    forall i, j :: 0 <= i < j < |items| ==> items[i].0 != items[j].0
  }

  /** The mappings concatenated in dictionary order. */
  function ConcatValues(items: seq<(string, string)>): (s: string)
    ensures |items| > 0 ==> EndsWith(s, items[|items| - 1].1)
  {
    if |items| == 0 then "" else ConcatValues(items[..|items| - 1]) + items[|items| - 1].1
  }

  /** One more mapping extends the concatenation by its value. */
  lemma ConcatStep(items: seq<(string, string)>, i: nat)
    requires i < |items|
    ensures ConcatValues(items[..i + 1]) == ConcatValues(items[..i]) + items[i].1
  {
    assert items[..i + 1][..i] == items[..i];
  }

  /** One more entry adds its subject to the subjects seen. */
  lemma SubjectsStep(items: seq<(string, string)>, i: nat)
    requires i < |items|
    ensures (set j | 0 <= j < i + 1 :: items[j].0) == (set j | 0 <= j < i :: items[j].0) + {items[i].0}
  {
  }

  /** The dictionary branch of `get_module_graph`: the mappings concatenated in order,
      and a copy of the dictionary. */
  method BuildGraph(items: seq<(string, string)>) returns (s: string, tasksToModule: map<string, string>)
    requires DistinctKeys(items)
    ensures s == ConcatValues(items)
    ensures tasksToModule.Keys == set i | 0 <= i < |items| :: items[i].0
    ensures forall i :: 0 <= i < |items| ==> tasksToModule[items[i].0] == items[i].1
  {
    s := "";
    tasksToModule := map[];
    for i := 0 to |items|
      invariant s == ConcatValues(items[..i])
      invariant tasksToModule.Keys == set j | 0 <= j < i :: items[j].0
      invariant forall j :: 0 <= j < i ==> tasksToModule[items[j].0] == items[j].1
    {
      var (subject, mapping) := items[i];
      ConcatStep(items, i);
      SubjectsStep(items, i);
      assert forall j :: 0 <= j < i ==> items[j].0 != subject;
      tasksToModule := tasksToModule[subject := mapping];
      s := s + mapping;
    }
    assert items[..|items|] == items;
  }

  /** `get_module_graph`: a dictionary yields the concatenation of its mappings and a
      copy of it; a name other than "SUB_10" comes back unchanged. */
  method GetModuleGraph(g: GraphArg) returns (r: ModuleGraph)
    requires g.Mapping? ==> DistinctKeys(g.items)
    ensures g.Mapping? ==> r.Built? && r.s == ConcatValues(g.items)
    ensures g.Mapping? ==> r.Built? && r.tasksToModule.Keys == set i | 0 <= i < |g.items| :: g.items[i].0
    ensures g.Mapping? ==> r.Built? && forall i :: 0 <= i < |g.items| ==> r.tasksToModule[g.items[i].0] == g.items[i].1
    ensures g.Named? && g.name != "SUB_10" ==> r == Unchanged(g.name)
    ensures g.Named? && g.name == "SUB_10" ==> r == SubjectCheckpoints(g.name)
  {
    if g.Named? {
      if g.name == "SUB_10" {
        return SubjectCheckpoints(g.name);
      }
      return Unchanged(g.name);
    }
    var s, tasksToModule := BuildGraph(g.items);
    r := Built(s, tasksToModule);
  }
}
