/** Python values, operator contracts and the project catalog. */
module Contracts {
  import opened Prelude

  // An object only the operator's own code can look into.
  type Handle(==, !new)

  /** Values that reach an operator or come back from it. A bool, an int and a float are three things to JSON. */
  datatype Value =
    | Nil
    | Bool(b: bool)
    | Number(n: real, floating: bool)
    | Text(text: string)
    | Bytes(bytes: seq<Byte>)
    | ByteArray(bytes: seq<Byte>)
    | List(elements: seq<Value>)
    | Dict(members: map<string, Value>)
    | Object(handle: Handle)

  /** What `==` sees of a value: True is 1, and 1.0 is 1. */
  function Seen(v: Value): Value {
    match v
    case Bool(b) => Number(if b then 1.0 else 0.0, false)
    case Number(n, _) => Number(n, false)
    case ByteArray(bytes) => Bytes(bytes)
    case List(elements) => List(seq(|elements|, i requires 0 <= i < |elements| => Seen(elements[i])))
    case Dict(members) => Dict(map key | key in members :: Seen(members[key]))
    case _ => v
  }

  predicate PyEqual(a: Value, b: Value) {
    Seen(a) == Seen(b)
  }

  datatype Source = InputPayload | InputMetadata | OperatorParameter | Constant

  datatype Codec = BytesCodec | TextCodec | JsonCodec

  datatype ParameterSpec = ParameterSpec(
    key: string, displayName: string, description: string, required: bool, hasDefault: bool, default: Value)

  datatype Binding = Binding(
    source: Source, codec: Codec, metadataKey: Option<string>, parameter: Option<ParameterSpec>, constant: Value)

  /** A value that JSON can write: the constants, defaults and output values of a contract. */
  predicate IsJson(v: Value) {
    match v
    case Bytes(_) => false
    case ByteArray(_) => false
    case Object(_) => false
    case List(elements) => forall i :: 0 <= i < |elements| ==> IsJson(elements[i])
    case Dict(members) => forall key :: key in members ==> IsJson(members[key])
    case _ => true
  }

  /** ArgumentBinding.validate_payload accepts it, and its values are JSON. */
  predicate ValidBinding(b: Binding) {
    && IsJson(b.constant) && (b.parameter.Some? ==> IsJson(b.parameter.value.default))
    && (b.source.InputMetadata? ==> b.metadataKey.Some? && b.metadataKey.value != "")
    && (b.source.OperatorParameter? ==> b.parameter.Some?)
  }

  /** A dictionary in insertion order. */
  type Bindings = seq<(string, Binding)>

  predicate ValidBindings(bindings: Bindings) {
    && (forall i, j :: 0 <= i < j < |bindings| ==> bindings[i].0 != bindings[j].0)
    && (forall i :: 0 <= i < |bindings| ==> ValidBinding(bindings[i].1))
  }

  datatype Part = Key(name: string) | Index(index: int)

  datatype OutputSource = Return | ReturnPath | OutputConstant

  datatype OutputValue = OutputValue(source: OutputSource, path: seq<Part>, codec: Codec, value: Value)

  datatype NonePolicy = KeepOriginal | Empty

  datatype Output = Output(payload: OutputValue, metadata: map<string, OutputValue>, nonePolicy: NonePolicy)

  datatype Origin = Origin(revision: string, pythonPath: string, ref: Option<string>)

  datatype Contract = Contract(
    name: string, displayName: string, description: string,
    origin: Origin, callableId: string,
    constructorArguments: Bindings, arguments: Bindings, output: Output)

  predicate ValidOutput(output: Output) {
    IsJson(output.payload.value) && forall name :: name in output.metadata ==> IsJson(output.metadata[name].value)
  }

  predicate ValidContract(c: Contract) {
    ValidBindings(c.constructorArguments) && ValidBindings(c.arguments) && ValidOutput(c.output)
  }

  // ---------------------------------------------------------------- what the scanner found

  datatype ParameterKind = PositionalOnly | PositionalOrKeyword | KeywordOnly | VarPositional | VarKeyword

  datatype Parameter = Parameter(name: string, kind: ParameterKind, required: bool)

  datatype CallableKind = Function | InstanceMethod | StaticMethod | ClassMethod

  datatype Callable = Callable(
    id: string, pyModule: string, qualname: string, kind: CallableKind,
    classTarget: Option<string>, methodName: Option<string>, isAsync: bool, score: int, parameters: seq<Parameter>)

  datatype ClassInfo = ClassInfo(target: string, initializer: seq<Parameter>, methods: seq<Callable>)

  datatype Catalog = Catalog(
    revision: string, pythonPath: string, functions: seq<Callable>, classes: seq<ClassInfo>, hasErrors: bool)

  function AllMethods(classes: seq<ClassInfo>): seq<Callable> {
    if classes == [] then [] else classes[0].methods + AllMethods(classes[1..])
  }

  /** The first of the highest score among those with this id: what scanning the sorted list finds. */
  function Best(callables: seq<Callable>, id: string): Option<Callable> {
    if callables == [] then None
    else
      var rest := Best(callables[1..], id);
      if callables[0].id == id && (rest.None? || callables[0].score >= rest.value.score) then Some(callables[0])
      else rest
  }

  function CallableById(catalog: Catalog, id: string): Option<Callable> {
    Best(catalog.functions + AllMethods(catalog.classes), id)
  }

  function ClassByTarget(classes: seq<ClassInfo>, target: string): Option<ClassInfo> {
    if classes == [] then None
    else if classes[0].target == target then Some(classes[0])
    else ClassByTarget(classes[1..], target)
  }

  function Named(parameters: seq<Parameter>): set<string> {
    set i | 0 <= i < |parameters| :: parameters[i].name
  }

  /** _parameter_map: a later entry of the same name wins. */
  function ByName(parameters: seq<Parameter>): (m: map<string, Parameter>)
    ensures m.Keys == Named(parameters)
    ensures forall name :: name in m ==> m[name].name == name && m[name] in parameters
  {
    if parameters == [] then map[]
    else
      var last := |parameters| - 1;
      assert parameters == parameters[..last] + [parameters[last]];
      ByName(parameters[..last])[parameters[last].name := parameters[last]]
  }
}
