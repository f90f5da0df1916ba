/** From an operator contract and a scanned project to an execution plan. */
module Compiler {
  import opened Prelude
  import opened Names
  import opened Contracts

  datatype CompiledParameter = CompiledParameter(
    key: string, displayName: string, description: string, required: bool, hasDefault: bool, default: Value)

  type ParameterTable = map<string, CompiledParameter>

  datatype CompiledBinding = CompiledBinding(
    source: Source, codec: Codec, required: bool, metadataKey: Option<string>, parameterKey: Option<string>,
    constant: Value, hasDefault: bool, default: Value)

  type CompiledBindings = map<string, CompiledBinding>

  datatype CompileError =
    | WrongRevision | WrongPath | SyntaxErrors | NoSuchCallable | Unsupported | NotAMethod
    | UnknownParameters | MissingBindings | ConflictingParameter(key: string) | MalformedTarget

  /** `class_` is `classTarget` split in two, when there is one. */
  datatype Target = Target(
    kind: CallableKind, pyModule: string, qualname: string, classTarget: Option<string>, methodName: Option<string>,
    class_: Option<(string, string)>)

  /** Canonical JSON sorts every object, so it sees the binding maps and not their order. */
  datatype Digest = Sha256(
    contract: Contract, constructorArguments: map<string, Binding>, arguments: map<string, Binding>)

  datatype Plan = Plan(
    origin: Origin, target: Target,
    constructorArguments: CompiledBindings, arguments: CompiledBindings, output: Output,
    parameters: seq<CompiledParameter>, inputMetadata: seq<string>, outputMetadata: seq<string>, digest: Digest)

  // ---------------------------------------------------------------- one binding

  function Compiled(parameter: Parameter, spec: ParameterSpec): CompiledParameter {
    CompiledParameter(spec.key, if spec.displayName == "" then spec.key else spec.displayName, spec.description,
                      spec.required || parameter.required, spec.hasDefault, spec.default)
  }

  /** `existing.model_dump() != compiled.model_dump()` is false. */
  predicate Same(a: CompiledParameter, b: CompiledParameter) {
    && a.key == b.key && a.displayName == b.displayName && a.description == b.description
    && a.required == b.required && a.hasDefault == b.hasDefault && PyEqual(a.default, b.default)
  }

  function Payload(parameter: Parameter, b: Binding): CompiledBinding
    requires ValidBinding(b)
  {
    if b.source.OperatorParameter? then
      var compiled := Compiled(parameter, b.parameter.value);
      CompiledBinding(b.source, b.codec, compiled.required, b.metadataKey, Some(compiled.key), b.constant,
                      compiled.hasDefault, compiled.default)
    else CompiledBinding(b.source, b.codec, parameter.required, b.metadataKey, None, b.constant, false, Nil)
  }

  /** _compile_binding's effect on the shared table. */
  function Declare(table: ParameterTable, parameter: Parameter, b: Binding): Result<ParameterTable, CompileError>
    requires ValidBinding(b)
  {
    if !b.source.OperatorParameter? then Ok(table)
    else
      var compiled := Compiled(parameter, b.parameter.value);
      if compiled.key in table && !Same(table[compiled.key], compiled) then Err(ConflictingParameter(compiled.key))
      else Ok(table[compiled.key := compiled])
  }

  // ---------------------------------------------------------------- a binding map

  predicate Known(defs: map<string, Parameter>, bindings: Bindings) {
    forall i :: 0 <= i < |bindings| ==> bindings[i].0 in defs
  }

  function NamesOf(bindings: Bindings): set<string> {
    set i | 0 <= i < |bindings| :: bindings[i].0
  }

  function DeclareAll(defs: map<string, Parameter>, bindings: Bindings,
                      table: ParameterTable): Result<ParameterTable, CompileError>
    requires ValidBindings(bindings) && Known(defs, bindings)
  {
    if bindings == [] then Ok(table)
    else
      var last := |bindings| - 1;
      var before := DeclareAll(defs, bindings[..last], table);
      if before.Err? then before else Declare(before.value, defs[bindings[last].0], bindings[last].1)
  }

  function Payloads(defs: map<string, Parameter>, bindings: Bindings): CompiledBindings
    requires ValidBindings(bindings) && Known(defs, bindings)
  {
    if bindings == [] then map[]
    else
      var last := |bindings| - 1;
      Payloads(defs, bindings[..last])[bindings[last].0 := Payload(defs[bindings[last].0], bindings[last].1)]
  }

  function AsMap(bindings: Bindings): map<string, Binding> {
    if bindings == [] then map[]
    else var last := |bindings| - 1; AsMap(bindings[..last])[bindings[last].0 := bindings[last].1]
  }

  // ---------------------------------------------------------------- checks before compiling

  predicate Truthy(s: Option<string>) {
    s.Some? && s.value != ""
  }

  predicate SupportedKinds(parameters: seq<Parameter>) {
    forall i :: 0 <= i < |parameters| ==> parameters[i].kind.PositionalOrKeyword? || parameters[i].kind.KeywordOnly?
  }

  /** callable_support_reasons returns the empty list. */
  predicate Supported(callable: Callable, catalog: Catalog) {
    && !callable.isAsync && SupportedKinds(callable.parameters)
    && (callable.kind.InstanceMethod? ==>
          && Truthy(callable.classTarget)
          && ClassByTarget(catalog.classes, callable.classTarget.value).Some?
          && SupportedKinds(ClassByTarget(catalog.classes, callable.classTarget.value).value.initializer))
  }

  function ConstructorDefs(callable: Callable, catalog: Catalog): seq<Parameter>
    requires Supported(callable, catalog)
  {
    if callable.kind.InstanceMethod? then ClassByTarget(catalog.classes, callable.classTarget.value).value.initializer
    else []
  }

  predicate HasUnknown(parameters: seq<Parameter>, names: set<string>) {
    exists name :: name in names && name !in ByName(parameters)
  }

  predicate HasMissing(parameters: seq<Parameter>, names: set<string>) {
    exists i :: 0 <= i < |parameters| && parameters[i].required && parameters[i].name !in names
  }

  function Validate(parameters: seq<Parameter>, names: set<string>): Option<CompileError> {
    if HasUnknown(parameters, names) then Some(UnknownParameters)
    else if HasMissing(parameters, names) then Some(MissingBindings)
    else None
  }

  /** Every check that comes before the first binding is compiled. */
  function Selected(c: Contract, catalog: Catalog): (r: Result<Callable, CompileError>)
    ensures r.Ok? ==> Supported(r.value, catalog)
    ensures r.Ok? ==> Validate(ConstructorDefs(r.value, catalog), NamesOf(c.constructorArguments)).None?
    ensures r.Ok? ==> Validate(r.value.parameters, NamesOf(c.arguments)).None?
  {
    if c.origin.revision != catalog.revision then Err(WrongRevision)
    else if c.origin.pythonPath != catalog.pythonPath then Err(WrongPath)
    else if catalog.hasErrors then Err(SyntaxErrors)
    else
      var found := CallableById(catalog, c.callableId);
      if found.None? then Err(NoSuchCallable)
      else
        var callable := found.value;
        if !Supported(callable, catalog) then Err(Unsupported)
        else if !callable.kind.InstanceMethod? && NamesOf(c.constructorArguments) != {} then Err(NotAMethod)
        else
          var first := Validate(ConstructorDefs(callable, catalog), NamesOf(c.constructorArguments));
          if first.Some? then Err(first.value)
          else
            var second := Validate(callable.parameters, NamesOf(c.arguments));
            if second.Some? then Err(second.value) else Ok(callable)
  }

  // ---------------------------------------------------------------- the plan

  /** class_target.split(":", 1), which needs a colon to unpack into two. */
  function SplitTarget(target: string): Option<(string, string)> {
    if target == "" then None
    else if target[0] == ':' then Some(("", target[1..]))
    else
      var rest := SplitTarget(target[1..]);
      if rest.None? then None else Some(([target[0]] + rest.value.0, rest.value.1))
  }

  function TargetPayload(callable: Callable): Option<Target> {
    if Truthy(callable.classTarget) then
      var split := SplitTarget(callable.classTarget.value);
      if split.None? then None
      else
        Some(Target(callable.kind, callable.pyModule, callable.qualname, callable.classTarget, callable.methodName,
                    split))
    else
      Some(Target(callable.kind, callable.pyModule, callable.qualname, callable.classTarget, callable.methodName, None))
  }

  function MetadataKeys(bindings: CompiledBindings): set<string> {
    set name | name in bindings && bindings[name].source.InputMetadata? && Truthy(bindings[name].metadataKey) ::
      bindings[name].metadataKey.value
  }

  function InKeyOrder(table: ParameterTable): (r: seq<CompiledParameter>)
    ensures |r| == |Sorted(table.Keys)| && forall i :: 0 <= i < |r| ==> r[i] == table[Sorted(table.Keys)[i]]
  {
    var keys := Sorted(table.Keys);
    seq(|keys|, i requires 0 <= i < |keys| => table[keys[i]])
  }

  function DigestOf(c: Contract): Digest {
    Sha256(c.(constructorArguments := [], arguments := []), AsMap(c.constructorArguments), AsMap(c.arguments))
  }

  function ConstructorMap(callable: Callable, catalog: Catalog): map<string, Parameter>
    requires Supported(callable, catalog)
  {
    ByName(ConstructorDefs(callable, catalog))
  }

  lemma ValidatedIsKnown(parameters: seq<Parameter>, bindings: Bindings)
    requires Validate(parameters, NamesOf(bindings)).None?
    ensures Known(ByName(parameters), bindings)
  {
    forall i | 0 <= i < |bindings| ensures bindings[i].0 in ByName(parameters) {
      assert bindings[i].0 in NamesOf(bindings);
    }
  }

  /** The shared table after both binding maps. */
  function Declared(c: Contract, callable: Callable, catalog: Catalog): Result<ParameterTable, CompileError>
    requires ValidContract(c) && Supported(callable, catalog)
    requires Known(ConstructorMap(callable, catalog), c.constructorArguments)
    requires Known(ByName(callable.parameters), c.arguments)
  {
    var first := DeclareAll(ConstructorMap(callable, catalog), c.constructorArguments, map[]);
    if first.Err? then first else DeclareAll(ByName(callable.parameters), c.arguments, first.value)
  }

  /** compile_virtual_contract. */
  function Compile(c: Contract, catalog: Catalog): Result<Plan, CompileError>
    requires ValidContract(c)
  {
    var selected := Selected(c, catalog);
    if selected.Err? then Err(selected.error)
    else
      var callable := selected.value;
      ValidatedIsKnown(ConstructorDefs(callable, catalog), c.constructorArguments);
      ValidatedIsKnown(callable.parameters, c.arguments);
      var declared := Declared(c, callable, catalog);
      if declared.Err? then Err(declared.error)
      else
        var target := TargetPayload(callable);
        if target.None? then Err(MalformedTarget)
        else
          var constructorArguments := Payloads(ConstructorMap(callable, catalog), c.constructorArguments);
          var arguments := Payloads(ByName(callable.parameters), c.arguments);
          Ok(Plan(c.origin, target.value, constructorArguments, arguments, c.output, InKeyOrder(declared.value),
                  Sorted(MetadataKeys(constructorArguments) + MetadataKeys(arguments)), Sorted(c.output.metadata.Keys),
                    DigestOf(c)))
  }

  // ---------------------------------------------------------------- the compiler at work

  /** One run of compile_virtual_contract: both binding maps write to the same parameter table. */
  class Compilation {
    var parameters: ParameterTable

    constructor ()
      ensures parameters == map[]
    {
      parameters := map[];
    }

    /** _compile_binding. */
    method CompileBinding(parameter: Parameter, b: Binding) returns (r: Result<CompiledBinding, CompileError>)
      requires ValidBinding(b)
      modifies this
      ensures match Declare(old(parameters), parameter, b)
        case Ok(table) => r == Ok(Payload(parameter, b)) && parameters == table
        case Err(error) => r == Err(error) && parameters == old(parameters)
    {
      var payload :=
        CompiledBinding(b.source, b.codec, parameter.required, b.metadataKey, None, b.constant, false, Nil);
      if b.source.OperatorParameter? {
        var compiled := Compiled(parameter, b.parameter.value);
        if compiled.key in parameters && !Same(parameters[compiled.key], compiled) {
          return Err(ConflictingParameter(compiled.key));
        }
        parameters := parameters[compiled.key := compiled];
        payload := payload.(parameterKey := Some(compiled.key), required := compiled.required,
                            hasDefault := compiled.hasDefault, default := compiled.default);
      }
      r := Ok(payload);
    }

    /** _compile_bindings: binding by binding, in the map's own order. */
    method CompileBindings(defs: map<string, Parameter>,
                           bindings: Bindings) returns (r: Result<CompiledBindings, CompileError>)
      requires ValidBindings(bindings) && Known(defs, bindings)
      modifies this
      ensures match DeclareAll(defs, bindings, old(parameters))
        case Ok(table) => r == Ok(Payloads(defs, bindings)) && parameters == table
        case Err(error) => r == Err(error)
    {
      var payloads: CompiledBindings := map[];
      for i := 0 to |bindings|
        invariant DeclareAll(defs, bindings[..i], old(parameters)) == Ok(parameters)
        invariant payloads == Payloads(defs, bindings[..i])
      {
        var (name, b) := bindings[i];
        assert bindings[..i + 1][..i] == bindings[..i];
        var payload := CompileBinding(defs[name], b);
        if payload.Err? {
          FailsLater(defs, bindings, old(parameters), i + 1);
          return Err(payload.error);
        }
        payloads := payloads[name := payload.value];
      }
      assert bindings[..|bindings|] == bindings;
      r := Ok(payloads);
    }
  }

  /** The first conflict is the one that is reported. */
  lemma {:induction false} FailsLater(defs: map<string, Parameter>, bindings: Bindings, table: ParameterTable, i: nat)
    requires ValidBindings(bindings) && Known(defs, bindings) && i <= |bindings|
    requires DeclareAll(defs, bindings[..i], table).Err?
    ensures DeclareAll(defs, bindings, table) == DeclareAll(defs, bindings[..i], table)
    decreases |bindings|
  {
    if i == |bindings| {
      assert bindings[..i] == bindings;
    } else {
      var rest := bindings[..|bindings| - 1];
      assert rest[..i] == bindings[..i];
      FailsLater(defs, rest, table, i);
    }
  }

  method CompileVirtualContract(c: Contract, catalog: Catalog) returns (r: Result<Plan, CompileError>)
    requires ValidContract(c)
    ensures r == Compile(c, catalog)
  {
    var selected := Selected(c, catalog);
    if selected.Err? { return Err(selected.error); }
    var callable := selected.value;
    ValidatedIsKnown(ConstructorDefs(callable, catalog), c.constructorArguments);
    ValidatedIsKnown(callable.parameters, c.arguments);
    var compilation := new Compilation();
    var constructorArguments := compilation.CompileBindings(ConstructorMap(callable, catalog), c.constructorArguments);
    if constructorArguments.Err? { return Err(constructorArguments.error); }
    var arguments := compilation.CompileBindings(ByName(callable.parameters), c.arguments);
    if arguments.Err? { return Err(arguments.error); }
    var target := TargetPayload(callable);
    if target.None? { return Err(MalformedTarget); }
    var keys := MetadataKeys(constructorArguments.value) + MetadataKeys(arguments.value);
    r := Ok(Plan(c.origin, target.value, constructorArguments.value, arguments.value, c.output,
                 InKeyOrder(compilation.parameters), Sorted(keys), Sorted(c.output.metadata.Keys), DigestOf(c)));
  }
}
