/**
 * The two generated adapters: one served by the runner behind attribute filters, one
 * running inside NiFi. Both interpret the same plan, whose JSON lists every object in key order.
 */
module Adapters {
  import opened Prelude
  import opened Names
  import opened Contracts
  import opened Compiler

  /** Everything the adapters call that is not theirs: UTF-8, JSON, str(), and the operator's own code. */
  datatype World = World(
    encode: string -> Option<seq<Byte>>,
    decode: seq<Byte> -> Option<string>,
    parse: string -> Option<Value>,
    dump: Value -> Option<string>,
    show: Value -> Option<string>,
    item: (Value, Part) -> Option<Value>,
    attribute: (Value, string) -> Option<Value>,
    lookup: (string, string) -> Option<Value>,
    call: (Value, map<string, Value>) -> Option<Value>)

  datatype Failure =
    | NotDecodable | MissingMetadata(key: Option<string>) | MissingParameter(key: Option<string>)
    | OperatorRaised | NoSuchPart | NotEncodable | NotLoaded

  function Guard<T>(v: Option<T>, failure: Failure): Result<T, Failure> {
    if v.Some? then Ok(v.value) else Err(failure)
  }

  // ---------------------------------------------------------------- inputs

  /** _decode of the runner's adapter. */
  function Decode(w: World, raw: Value, codec: Codec): Result<Value, Failure> {
    match codec
    case BytesCodec =>
      if raw.Bytes? then Ok(raw)
      else if raw.Text? then Utf8(w, raw.text)
      else Err(NotDecodable)
    case TextCodec =>
      if raw.Bytes? then Decoded(w, raw.bytes)
      else if raw.Text? then Ok(raw)
      else Shown(w, raw)
    case JsonCodec =>
      if raw.Bytes? then
        var text := w.decode(raw.bytes);
        if text.None? then Err(NotDecodable) else Guard(w.parse(text.value), NotDecodable)
      else if raw.Text? then Guard(w.parse(raw.text), NotDecodable)
      else Ok(raw)
  }

  function Utf8(w: World, text: string): Result<Value, Failure> {
    var bytes := w.encode(text);
    if bytes.Some? then Ok(Bytes(bytes.value)) else Err(NotDecodable)
  }

  function Decoded(w: World, bytes: seq<Byte>): Result<Value, Failure> {
    var text := w.decode(bytes);
    if text.Some? then Ok(Text(text.value)) else Err(NotDecodable)
  }

  function Shown(w: World, v: Value): Result<Value, Failure> {
    var text := w.show(v);
    if text.Some? then Ok(Text(text.value)) else Err(NotDecodable)
  }

  /** bytes(raw) for a bytearray, which the native adapter does first. */
  function Frozen(raw: Value): Value {
    if raw.ByteArray? then Bytes(raw.bytes) else raw
  }

  function NativeDecode(w: World, raw: Value, codec: Codec): Result<Value, Failure> {
    Decode(w, Frozen(raw), codec)
  }

  datatype Inputs = Inputs(content: Value, attributes: map<string, Value>, parameters: map<string, Value>)

  /** None stands for the adapters' marker of an argument that is left out. */
  type Resolved = Result<Option<Value>, Failure>

  function Given(v: Result<Value, Failure>): Resolved {
    if v.Ok? then Ok(Some(v.value)) else Err(v.error)
  }

  predicate Has(values: map<string, Value>, key: Option<string>) {
    key.Some? && key.value in values
  }

  /** _resolve_binding of the runner's adapter. */
  function Resolve(w: World, b: CompiledBinding, inputs: Inputs): Resolved {
    match b.source
    case InputPayload => Given(Decode(w, inputs.content, b.codec))
    case InputMetadata =>
      if Has(inputs.attributes, b.metadataKey) then Given(Decode(w, inputs.attributes[b.metadataKey.value], b.codec))
      else if b.required then Err(MissingMetadata(b.metadataKey))
      else Ok(None)
    case OperatorParameter =>
      if Has(inputs.parameters, b.parameterKey) then Given(Decode(w, inputs.parameters[b.parameterKey.value], b.codec))
      else if b.hasDefault then Ok(Some(b.default))
      else if b.required then Err(MissingParameter(b.parameterKey))
      else Ok(None)
    case Constant => Ok(Some(b.constant))
  }

  /** _resolve_binding of the native adapter: None counts as absent. */
  function NativeResolve(w: World, b: CompiledBinding, inputs: Inputs): Resolved {
    match b.source
    case InputPayload => Given(NativeDecode(w, inputs.content, b.codec))
    case InputMetadata =>
      if !Has(inputs.attributes, b.metadataKey) || inputs.attributes[b.metadataKey.value].Nil? then
        if b.required then Err(MissingMetadata(b.metadataKey)) else Ok(None)
      else Given(NativeDecode(w, inputs.attributes[b.metadataKey.value], b.codec))
    case OperatorParameter =>
      if Has(inputs.parameters, b.parameterKey) && !inputs.parameters[b.parameterKey.value].Nil? then
        Given(NativeDecode(w, inputs.parameters[b.parameterKey.value], b.codec))
      else if b.hasDefault then Ok(Some(b.default))
      else if b.required then Err(MissingParameter(b.parameterKey))
      else Ok(None)
    case Constant => Ok(Some(b.constant))
  }

  type Kwargs = map<string, Value>

  /** _build_kwargs over a given resolver: the first failure in key order, or the values that were given. */
  function Gather(names: seq<string>, bindings: CompiledBindings,
                  resolve: CompiledBinding -> Resolved): Result<Kwargs, Failure>
    requires forall name :: name in names ==> name in bindings
  {
    if names == [] then Ok(map[])
    else
      var last := |names| - 1;
      var before := Gather(names[..last], bindings, resolve);
      if before.Err? then before
      else
        var resolved := resolve(bindings[names[last]]);
        if resolved.Err? then Err(resolved.error)
        else if resolved.value.None? then before
        else Ok(before.value[names[last] := resolved.value.value])
  }

  function RunnerKwargs(w: World, bindings: CompiledBindings, inputs: Inputs): Result<Kwargs, Failure> {
    Gather(Sorted(bindings.Keys), bindings, b => Resolve(w, b, inputs))
  }

  function NativeKwargs(w: World, bindings: CompiledBindings, inputs: Inputs): Result<Kwargs, Failure> {
    Gather(Sorted(bindings.Keys), bindings, b => NativeResolve(w, b, inputs))
  }

  /** _build_kwargs as both adapters run it. */
  method BuildKwargs(bindings: CompiledBindings,
                     resolve: CompiledBinding -> Resolved) returns (r: Result<Kwargs, Failure>)
    ensures r == Gather(Sorted(bindings.Keys), bindings, resolve)
  {
    hide Gather, Sorted;
    var names := Sorted(bindings.Keys);
    var kwargs: Kwargs := map[];
    GatherNothing(bindings, resolve);
    for i := 0 to |names|
      invariant Gather(names[..i], bindings, resolve) == Ok(kwargs)
    {
      GatherNext(names, bindings, resolve, i);
      var value := resolve(bindings[names[i]]);
      if value.Err? { return Err(value.error); }
      if value.value.Some? { kwargs := kwargs[names[i] := value.value.value]; }
    }
    assert names[..|names|] == names;
    r := Ok(kwargs);
  }

  lemma GatherNothing(bindings: CompiledBindings, resolve: CompiledBinding -> Resolved)
    ensures Gather([], bindings, resolve) == Ok(map[])
  {
  }

  /** One more name; a failure is the failure of the whole. */
  lemma GatherNext(names: seq<string>, bindings: CompiledBindings, resolve: CompiledBinding -> Resolved, i: nat)
    requires (forall name :: name in names ==> name in bindings) && i < |names|
    requires Gather(names[..i], bindings, resolve).Ok?
    ensures var (kwargs, value) := (Gather(names[..i], bindings, resolve).value, resolve(bindings[names[i]]));
      if value.Err? then Gather(names, bindings, resolve) == Err(value.error)
      else
        var gathered := if value.value.None? then kwargs else kwargs[names[i] := value.value.value];
        Gather(names[..i + 1], bindings, resolve) == Ok(gathered)
  {
    assert names[..i + 1][..i] == names[..i];
    if resolve(bindings[names[i]]).Err? { GatherStops(names, bindings, resolve, i + 1); }
  }

  lemma {:induction false} GatherStops(names: seq<string>, bindings: CompiledBindings,
                                       resolve: CompiledBinding -> Resolved, i: nat)
    requires (forall name :: name in names ==> name in bindings) && i <= |names|
    requires Gather(names[..i], bindings, resolve).Err?
    ensures Gather(names, bindings, resolve) == Gather(names[..i], bindings, resolve)
    decreases |names|
  {
    if i == |names| {
      assert names[..i] == names;
    } else {
      var rest := names[..|names| - 1];
      assert rest[..i] == names[..i];
      GatherStops(rest, bindings, resolve, i);
    }
  }

  // ---------------------------------------------------------------- the call

  /** The target with its arguments; for an instance method the object is made first. */
  function Invoke(w: World, target: Target, constructorKwargs: Kwargs, kwargs: Kwargs): Result<Value, Failure> {
    var callee :=
      if target.kind.InstanceMethod? then
        if target.class_.None? || target.methodName.None? then None
        else
          var cls := w.lookup(target.class_.value.0, target.class_.value.1);
          if cls.None? then None
          else
            var instance := w.call(cls.value, constructorKwargs);
            if instance.None? then None else w.attribute(instance.value, target.methodName.value)
      else w.lookup(target.pyModule, target.qualname);
    if callee.None? then Err(OperatorRaised) else Guard(w.call(callee.value, kwargs), OperatorRaised)
  }

  // ---------------------------------------------------------------- outputs

  function Step(w: World, v: Value, part: Part): Option<Value> {
    if part.Index? || v.Dict? then w.item(v, part) else w.attribute(v, part.name)
  }

  /** _extract: follow the path, part by part. */
  function Extract(w: World, v: Value, path: seq<Part>): Option<Value>
    decreases |path|
  {
    if path == [] then Some(v)
    else
      var next := Step(w, v, path[0]);
      if next.None? then None else Extract(w, next.value, path[1..])
  }

  method FollowPath(w: World, v: Value, path: seq<Part>) returns (r: Option<Value>)
    ensures r == Extract(w, v, path)
  {
    var current := v;
    for i := 0 to |path|
      invariant Extract(w, v, path) == Extract(w, current, path[i..])
    {
      var next := Step(w, current, path[i]);
      assert path[i..][1..] == path[i + 1..];
      if next.None? { return None; }
      current := next.value;
    }
    r := Some(current);
  }

  function OutputOf(w: World, result: Value, spec: OutputValue): Result<Value, Failure> {
    match spec.source
    case Return => Ok(result)
    case ReturnPath => Guard(Extract(w, result, spec.path), NoSuchPart)
    case OutputConstant => Ok(spec.value)
  }

  function Str(w: World, v: Value): Option<string> {
    if v.Text? then Some(v.text) else w.show(v)
  }

  /** _encode_payload of the runner's adapter: always bytes. */
  function EncodePayload(w: World, v: Value, codec: Codec): Result<seq<Byte>, Failure> {
    match codec
    case BytesCodec =>
      if v.Bytes? || v.ByteArray? then Ok(v.bytes)
      else if v.Text? then Guard(w.encode(v.text), NotEncodable)
      else Err(NotEncodable)
    case TextCodec =>
      var text := Str(w, v);
      if text.None? then Err(NotEncodable) else Guard(w.encode(text.value), NotEncodable)
    case JsonCodec =>
      var text := w.dump(v);
      if text.None? then Err(NotEncodable) else Guard(w.encode(text.value), NotEncodable)
  }

  datatype NativeContents = Unchanged | Raw(bytes: seq<Byte>) | Characters(text: string)

  /** _encode_payload of the native adapter: text stays text. */
  function NativeEncodePayload(w: World, v: Value, codec: Codec): Result<NativeContents, Failure> {
    match codec
    case BytesCodec =>
      if v.Bytes? || v.ByteArray? then Ok(Raw(v.bytes))
      else if v.Text? then
        var bytes := w.encode(v.text);
        if bytes.Some? then Ok(Raw(bytes.value)) else Err(NotEncodable)
      else Err(NotEncodable)
    case TextCodec =>
      var text := Str(w, v);
      if text.Some? then Ok(Characters(text.value)) else Err(NotEncodable)
    case JsonCodec =>
      var text := w.dump(v);
      if text.Some? then Ok(Characters(text.value)) else Err(NotEncodable)
  }

  function MetadataText(w: World, v: Value): Option<string> {
    if v.Text? then Some(v.text) else if v.Bytes? then w.decode(v.bytes) else w.dump(v)
  }

  function OutputAttributes(w: World, names: seq<string>, metadata: map<string, OutputValue>,
                            result: Value): (r: Result<map<string, string>, Failure>)
    requires forall name :: name in names ==> name in metadata
    ensures r.Ok? ==> r.value.Keys == set name | name in names
  {
    if names == [] then Ok(map[])
    else
      var last := |names| - 1;
      assert names == names[..last] + [names[last]];
      var before := OutputAttributes(w, names[..last], metadata, result);
      if before.Err? then before
      else
        var v := OutputOf(w, result, metadata[names[last]]);
        if v.Err? then Err(v.error)
        else
          var text := MetadataText(w, v.value);
          if text.None? then Err(NotEncodable) else Ok(before.value[names[last] := text.value])
  }

  // ---------------------------------------------------------------- the runner's adapter

  datatype Answer = Answer(content: seq<Byte>, attributes: map<string, string>)

  /** The call both adapters make, once the arguments are there. */
  function Called(w: World, plan: Plan, constructorKwargs: Result<Kwargs, Failure>,
                  kwargs: Result<Kwargs, Failure>): Result<Value, Failure> {
    if constructorKwargs.Err? then Err(constructorKwargs.error)
    else if kwargs.Err? then Err(kwargs.error)
    else Invoke(w, plan.target, constructorKwargs.value, kwargs.value)
  }

  /** The rest of process, once the operator has answered. */
  function Finish(w: World, output: Output, content: seq<Byte>, result: Value): Result<Answer, Failure> {
    var payload := OutputOf(w, result, output.payload);
    if payload.Err? then Err(payload.error)
    else
      var contents :=
        if payload.value.Nil? then Ok(if output.nonePolicy.KeepOriginal? then content else [])
        else EncodePayload(w, payload.value, output.payload.codec);
      if contents.Err? then Err(contents.error)
      else
        var attributes := OutputAttributes(w, Sorted(output.metadata.Keys), output.metadata, result);
        if attributes.Err? then Err(attributes.error) else Ok(Answer(contents.value, attributes.value))
  }

  /** process: the generated __dsc_entry__ of a release. */
  function Process(w: World, plan: Plan, content: seq<Byte>, attributes: map<string, Value>,
                   parameters: map<string, Value>): Result<Answer, Failure> {
    var inputs := Inputs(Bytes(content), attributes, parameters);
    var result :=
      Called(w, plan, RunnerKwargs(w, plan.constructorArguments, inputs), RunnerKwargs(w, plan.arguments, inputs));
    if result.Err? then Err(result.error) else Finish(w, plan.output, content, result.value)
  }

  function Filter<T>(values: map<string, T>, allowed: seq<string>): map<string, T> {
    if allowed == [] then map[] else map key | key in values && key in allowed :: values[key]
  }

  datatype Release = Release(inputAttributes: seq<string>, outputAttributes: seq<string>)

  /** The publisher refuses empty names and lists the rest in order. */
  function Publish(plan: Plan): Option<Release> {
    if "" in plan.inputMetadata || "" in plan.outputMetadata then None
    else Some(Release(Sorted(set name | name in plan.inputMetadata), Sorted(set name | name in plan.outputMetadata)))
  }

  /** What the runner serves: the adapter between the two filters of the release. */
  function Served(w: World, plan: Plan, release: Release, content: seq<Byte>, attributes: map<string, Value>,
                  parameters: map<string, Value>): Result<Answer, Failure> {
    var answer := Process(w, plan, content, Filter(attributes, release.inputAttributes), parameters);
    if answer.Err? then answer
    else Ok(answer.value.(attributes := Filter(answer.value.attributes, release.outputAttributes)))
  }

  // ---------------------------------------------------------------- the native adapter

  /** FlowFileTransformResult: None for contents or attributes leaves them alone. */
  datatype NativeAnswer = NativeAnswer(contents: NativeContents, attributes: Option<map<string, string>>)

  /** The properties of the processor that have a value. */
  function Properties(descriptors: seq<CompiledParameter>, property: string -> Option<string>): map<string, Value> {
    map i | 0 <= i < |descriptors| && property(descriptors[i].key).Some? ::
      descriptors[i].key := Text(property(descriptors[i].key).value)
  }

  /** The rest of transform, once the operator has answered. */
  function NativeFinish(w: World, output: Output, result: Value): Result<NativeAnswer, Failure> {
    var payload := OutputOf(w, result, output.payload);
    if payload.Err? then Err(payload.error)
    else
      var contents :=
        if payload.value.Nil? && output.nonePolicy.KeepOriginal? then Ok(Unchanged)
        else if payload.value.Nil? then Ok(Raw([]))
        else NativeEncodePayload(w, payload.value, output.payload.codec);
      if contents.Err? then Err(contents.error)
      else
        var attributes := OutputAttributes(w, Sorted(output.metadata.Keys), output.metadata, result);
        if attributes.Err? then Err(attributes.error)
        else Ok(NativeAnswer(contents.value, if attributes.value == map[] then None else Some(attributes.value)))
  }

  /** transform, of a module with this plan and these property descriptors. */
  function Transform(w: World, plan: Plan, descriptors: seq<CompiledParameter>, content: Value,
                     metadata: map<string, Value>, property: string -> Option<string>): Result<NativeAnswer, Failure> {
    var inputs := Inputs(content, metadata, Properties(descriptors, property));
    var result :=
      Called(w, plan, NativeKwargs(w, plan.constructorArguments, inputs), NativeKwargs(w, plan.arguments, inputs));
    if result.Err? then Err(result.error) else NativeFinish(w, plan.output, result.value)
  }

  /** How NiFi reads the native answer: text becomes UTF-8, None keeps the flow file's own content. */
  function Read(w: World, original: seq<Byte>, native: Result<NativeAnswer, Failure>): Result<Answer, Failure> {
    if native.Err? then Err(native.error)
    else
      var contents := match native.value.contents
        case Unchanged => Ok(original)
        case Raw(bytes) => Ok(bytes)
        case Characters(text) => Guard(w.encode(text), NotEncodable);
      if contents.Err? then Err(contents.error)
      else Ok(Answer(contents.value, if native.value.attributes.Some? then native.value.attributes.value else map[]))
  }
}
