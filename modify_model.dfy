/** The model-modifier registry: a table from modifier names to modifier classes, a
    table from config types to modifier names, the rule that resolves which modifier a
    config asks for, and `modify_transformer`, which freezes or unfreezes every
    parameter and hands the model to the resolved modifier class. */
module ModifyModel {
  import opened Wrappers

  /** A registered modifier class, identified by its name in the program. */
  type ClassId = string

  /** A config type, identified by its class name (what `type(config)` yields). */
  type ConfigType = string

  datatype ModifierError =
    | DuplicateModifier(name: string)   // ValueError in `register_modifier`
    | ModifierNotFound(name: string)    // ValueError in `modify_transformer`

  /** Python truthiness of an optional string: `None` and `""` are false. */
  predicate Truthy(s: Option<string>) {
    s.Some? && s.value != ""
  }

  /** Python's `a or b`: `a` when it is truthy, otherwise `b`. */
  function Or(a: Option<string>, b: Option<string>): (r: Option<string>)
    ensures Truthy(a) ==> r == a
    ensures !Truthy(a) ==> r == b
  {
    if Truthy(a) then a else b
  }

  /** `dict.get(key, None)`. */
  function Get(table: map<ConfigType, string>, key: ConfigType): (r: Option<string>)
    ensures r.Some? <==> key in table
    ensures r.Some? ==> r.value == table[key]
  {
    if key in table then Some(table[key]) else None
  }

  /** `get_modifier_type`: the explicit argument, else the config's `model_modifier`
      attribute (`None` when absent), else the entry for the config's type; a falsy
      value at one step falls through to the next. */
  function GetModifierType(argument: Option<string>, modifierAttr: Option<string>, configType: ConfigType,
                           configsToModifiers: map<ConfigType, string>): (r: Option<string>)
    ensures Truthy(argument) ==> r == argument
    ensures !Truthy(argument) && Truthy(modifierAttr) ==> r == modifierAttr
    ensures !Truthy(argument) && !Truthy(modifierAttr) ==> r == Get(configsToModifiers, configType)
  {
    Or(Or(argument, modifierAttr), Get(configsToModifiers, configType))
  }

  /** A truthy resolved name comes from one of the three sources, and a source that is
      truthy is never passed over for a later one. */
  lemma ResolvedNameSource(argument: Option<string>, modifierAttr: Option<string>, configType: ConfigType,
                           configsToModifiers: map<ConfigType, string>)
    ensures var r := GetModifierType(argument, modifierAttr, configType, configsToModifiers);
      Truthy(r) ==>
        (r == argument || r == modifierAttr ||
         (configType in configsToModifiers && r.value == configsToModifiers[configType]))
    ensures var r := GetModifierType(argument, modifierAttr, configType, configsToModifiers);
      !Truthy(r) ==> !Truthy(argument) && !Truthy(modifierAttr)
  {
  }

  /** The two module-level tables `MODIFIERS` and `CONFIGS_TO_MODIFIERS`. */
  class Registry {
    var modifiers: map<string, ClassId>
    var configsToModifiers: map<ConfigType, string>

    /** Every config type points at a registered modifier name. */
    ghost predicate Valid()
      reads this
    {
      forall c :: c in configsToModifiers ==> configsToModifiers[c] in modifiers
    }

    constructor ()
      ensures Valid() && modifiers == map[] && configsToModifiers == map[]
    {
      modifiers := map[];
      configsToModifiers := map[];
    }

    /** `register_modifier(name, config_cls)(klass)`: a name already present raises and
        changes nothing; otherwise the class is recorded under the name, the config type
        (when given) is pointed at the name, replacing any earlier entry, and the class
        is returned unchanged. */
    method Register(name: string, configCls: Option<ConfigType>, klass: ClassId)
      returns (r: Result<ClassId, ModifierError>)
      requires Valid()
      modifies this
      ensures Valid()
      ensures name in old(modifiers) ==>
        r == Failure(DuplicateModifier(name)) &&
        modifiers == old(modifiers) && configsToModifiers == old(configsToModifiers)
      ensures name !in old(modifiers) ==>
        r == Success(klass) &&
        modifiers == old(modifiers)[name := klass] &&
        configsToModifiers == (if configCls.Some? then old(configsToModifiers)[configCls.value := name]
                               else old(configsToModifiers))
    {
      if name in modifiers {
        return Failure(DuplicateModifier(name));
      }
      modifiers := modifiers[name := klass];
      if configCls.Some? {
        configsToModifiers := configsToModifiers[configCls.value := name];
      }
      r := Success(klass);
    }
  }

  /** The parts of a transformer `modify_transformer` touches: the `requires_grad` flag of
      every parameter and the shared task-id container. */
  class Transformer {
    const requiresGrad: array<bool>
    var taskIdContainer: map<string, int>

    constructor (flags: array<bool>, container: map<string, int>)
      ensures requiresGrad == flags && taskIdContainer == container
    {
      requiresGrad := flags;
      taskIdContainer := container;
    }
  }

  /** What `modify_transformer` hands back when it raises nothing. */
  datatype Outcome =
    | Unmodified             // the transformer itself, no modifier applied
    | Delegated(klass: ClassId)  // the result of `klass.modify_transformer`

  /** `modify_transformer`: empties the task-id container; freezes every parameter when
      the config carries a truthy `model_modifier` attribute and unfreezes every one
      otherwise (whatever name is resolved); then, with the resolved name, returns the
      transformer unchanged when the name is `None` or empty, delegates to the class
      registered under it, or raises when it is not registered. The flags and the
      container stay changed on the raising path. */
  method ModifyTransformer(t: Transformer, registry: Registry, argument: Option<string>,
                           modifierAttr: Option<string>, configType: ConfigType)
    returns (r: Result<Outcome, ModifierError>)
    modifies t, t.requiresGrad
    ensures t.taskIdContainer == map[]
    ensures forall i :: 0 <= i < t.requiresGrad.Length ==> t.requiresGrad[i] == !Truthy(modifierAttr)
    ensures var name := GetModifierType(argument, modifierAttr, configType, registry.configsToModifiers);
      && (!Truthy(name) ==> r == Success(Unmodified))
      && (Truthy(name) && name.value in registry.modifiers ==> r == Success(Delegated(registry.modifiers[name.value])))
      && (Truthy(name) && name.value !in registry.modifiers ==> r == Failure(ModifierNotFound(name.value)))
  {
    t.taskIdContainer := map[];
    var frozen := Truthy(modifierAttr);
    var i := 0;
    while i < t.requiresGrad.Length
      invariant 0 <= i <= t.requiresGrad.Length
      invariant forall k :: 0 <= k < i ==> t.requiresGrad[k] == !frozen
      invariant t.taskIdContainer == map[]
    {
      t.requiresGrad[i] := !frozen;
      i := i + 1;
    }
    var name := GetModifierType(argument, modifierAttr, configType, registry.configsToModifiers);
    if name.None? {
      return Success(Unmodified);
    }
    if name.value != "" {
      if name.value in registry.modifiers {
        return Success(Delegated(registry.modifiers[name.value]));
      }
      return Failure(ModifierNotFound(name.value));
    }
    r := Success(Unmodified);
  }
}
