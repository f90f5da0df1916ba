/**
 * What a contract means, said without the compiler: each binding read directly, the
 * selected callable invoked, its result laid out as the contract asks. Compiling a
 * contract and interpreting the plan computes exactly that.
 */
module ContractMeaning {
  import opened Prelude
  import opened Names
  import opened Contracts
  import opened Compiler
  import opened CompilerTheorems
  import opened Adapters
  import opened AdapterTheorems

  // ---------------------------------------------------------------- codecs

  /** The value a raw input stands for under a codec, kind by kind; None when it stands for none. */
  function Understand(w: World, raw: Value, codec: Codec): Option<Value> {
    match raw
    case Text(text) => UnderstandText(w, text, codec)
    case Bytes(bytes) => UnderstandBytes(w, bytes, codec)
    case _ =>
      if codec == BytesCodec then None
      else if codec == JsonCodec then Some(raw)
      else if w.show(raw).Some? then Some(Text(w.show(raw).value))
      else None
  }

  /** Text is itself, its UTF-8, or the value its JSON writes. */
  function UnderstandText(w: World, text: string, codec: Codec): Option<Value> {
    if codec == TextCodec then Some(Text(text))
    else if codec == JsonCodec then w.parse(text)
    else if w.encode(text).Some? then Some(Bytes(w.encode(text).value))
    else None
  }

  /** Bytes are themselves, or what the text is that they encode. */
  function UnderstandBytes(w: World, bytes: seq<Byte>, codec: Codec): Option<Value> {
    if codec == BytesCodec then Some(Bytes(bytes))
    else if w.decode(bytes).None? then None
    else UnderstandText(w, w.decode(bytes).value, codec)
  }

  lemma DecodeUnderstands(w: World, raw: Value, codec: Codec)
    ensures Decode(w, raw, codec) == Guard(Understand(w, raw, codec), NotDecodable)
  {
  }

  /**
   * A text means the same as its UTF-8 under every codec: as text itself, as bytes those bytes,
   * as JSON the value that is written there, or a decoding failure.
   */
  lemma TextMeansItsBytes(w: World, text: string, codec: Codec)
    requires Utf8Reads(w) && w.encode(text).Some?
    ensures Decode(w, Bytes(w.encode(text).value), codec) == Decode(w, Text(text), codec)
    ensures codec.TextCodec? ==> Decode(w, Text(text), codec) == Ok(Text(text))
    ensures codec.BytesCodec? ==> Decode(w, Text(text), codec) == Ok(Bytes(w.encode(text).value))
    ensures codec.JsonCodec? ==> forall v ::
      Decode(w, Text(text), codec) == Ok(v) <==> w.parse(text) == Some(v)
  {
    DecodeUnderstands(w, Text(text), codec);
    DecodeUnderstands(w, Bytes(w.encode(text).value), codec);
    hide Decode;
  }

  // ---------------------------------------------------------------- bindings

  /** An input that was there, read by the binding's codec. */
  function Reading(w: World, raw: Value, codec: Codec): Resolved {
    var v := Understand(w, raw, codec);
    if v.Some? then Ok(v) else Err(NotDecodable)
  }

  /** The value a binding gives a parameter, nothing for an optional one, or why it cannot. */
  function Meaning(w: World, parameter: Parameter, b: Binding, inputs: Inputs): Resolved
    requires ValidBinding(b)
  {
    match b.source
    case InputPayload => Reading(w, inputs.content, b.codec)
    case InputMetadata =>
      var key := b.metadataKey.value;
      if key in inputs.attributes then Reading(w, inputs.attributes[key], b.codec)
      else if parameter.required then Err(MissingMetadata(Some(key)))
      else Ok(None)
    case OperatorParameter =>
      var spec := b.parameter.value;
      if spec.key in inputs.parameters then Reading(w, inputs.parameters[spec.key], b.codec)
      else if spec.hasDefault then Ok(Some(spec.default))
      else if spec.required || parameter.required then Err(MissingParameter(Some(spec.key)))
      else Ok(None)
    case Constant => Ok(Some(b.constant))
  }

  /** Resolving a compiled binding is reading the contract's own. */
  lemma PayloadMeans(w: World, parameter: Parameter, b: Binding, inputs: Inputs)
    requires ValidBinding(b)
    ensures Resolve(w, Payload(parameter, b), inputs) == Meaning(w, parameter, b, inputs)
  {
    forall raw ensures Given(Decode(w, raw, b.codec)) == Reading(w, raw, b.codec) {
      DecodeUnderstands(w, raw, b.codec);
    }
    hide Decode, Reading;
  }

  predicate Passes(kwargs: Kwargs, name: string, meaning: Resolved) {
    if name in kwargs then meaning == Ok(Some(kwargs[name])) else meaning == Ok(None)
  }

  /** Keyword arguments that pass exactly what the bindings mean. */
  predicate Conveys(w: World, parameters: seq<Parameter>, bindings: Bindings, inputs: Inputs, kwargs: Kwargs)
    requires ValidBindings(bindings) && Known(ByName(parameters), bindings)
  {
    && kwargs.Keys <= NamesOf(bindings)
    && forall i :: 0 <= i < |bindings| ==>
         Passes(kwargs, bindings[i].0, Meaning(w, ByName(parameters)[bindings[i].0], bindings[i].1, inputs))
  }

  lemma ConveysOnce(w: World, parameters: seq<Parameter>, bindings: Bindings, inputs: Inputs, a: Kwargs, b: Kwargs)
    requires ValidBindings(bindings) && Known(ByName(parameters), bindings)
    requires Conveys(w, parameters, bindings, inputs, a) && Conveys(w, parameters, bindings, inputs, b)
    ensures a == b
  {
    hide Meaning, ByName;
    forall name | name in NamesOf(bindings) ensures (name in a <==> name in b) && (name in a ==> a[name] == b[name]) {
      var i :| 0 <= i < |bindings| && bindings[i].0 == name;
      assert Passes(a, bindings[i].0, Meaning(w, ByName(parameters)[bindings[i].0], bindings[i].1, inputs));
      assert Passes(b, bindings[i].0, Meaning(w, ByName(parameters)[bindings[i].0], bindings[i].1, inputs));
    }
  }

  predicate Fails(w: World, parameters: seq<Parameter>, bindings: Bindings, inputs: Inputs, failure: Failure)
    requires ValidBindings(bindings) && Known(ByName(parameters), bindings)
  {
    exists i :: 0 <= i < |bindings|
      && Meaning(w, ByName(parameters)[bindings[i].0], bindings[i].1, inputs) == Err(failure)
  }

  lemma EachPayloadMeans(w: World, parameters: seq<Parameter>, bindings: Bindings, inputs: Inputs, i: nat)
    requires ValidBindings(bindings) && Known(ByName(parameters), bindings) && i < |bindings|
    ensures var payloads := Payloads(ByName(parameters), bindings);
      && bindings[i].0 in payloads
      && Resolve(w, payloads[bindings[i].0], inputs)
           == Meaning(w, ByName(parameters)[bindings[i].0], bindings[i].1, inputs)
  {
    hide Payloads, Payload, Resolve, Meaning, ByName;
    PayloadsSpec(ByName(parameters), bindings, i);
    PayloadMeans(w, ByName(parameters)[bindings[i].0], bindings[i].1, inputs);
  }

  /** The arguments the adapter builds convey the bindings, or it fails as one of them does. */
  lemma KwargsMean(w: World, parameters: seq<Parameter>, bindings: Bindings, inputs: Inputs)
    requires ValidBindings(bindings) && Known(ByName(parameters), bindings)
    ensures var built := RunnerKwargs(w, Payloads(ByName(parameters), bindings), inputs);
      if built.Ok? then Conveys(w, parameters, bindings, inputs, built.value)
      else Fails(w, parameters, bindings, inputs, built.error)
  {
    hide Payloads, Resolve, Meaning, ByName, Gather;
    var payloads := Payloads(ByName(parameters), bindings);
    var names := Sorted(payloads.Keys);
    GatherSpec(names, payloads, b => Resolve(w, b, inputs));
    PayloadsSpec(ByName(parameters), bindings, |bindings|);
    var kwargs := RunnerKwargs(w, payloads, inputs);
    if kwargs.Ok? {
      forall i | 0 <= i < |bindings|
        ensures Passes(kwargs.value, bindings[i].0,
          Meaning(w, ByName(parameters)[bindings[i].0], bindings[i].1, inputs))
      {
        EachPayloadMeans(w, parameters, bindings, inputs, i);
      }
    } else {
      var name :| name in names && Resolve(w, payloads[name], inputs) == Err(kwargs.error);
      var i :| 0 <= i < |bindings| && bindings[i].0 == name;
      EachPayloadMeans(w, parameters, bindings, inputs, i);
    }
  }

  /** A failing binding leaves no arguments to convey. */
  lemma FailsConveysNothing(w: World, parameters: seq<Parameter>, bindings: Bindings, inputs: Inputs, failure: Failure,
                            kwargs: Kwargs)
    requires ValidBindings(bindings) && Known(ByName(parameters), bindings)
    requires Fails(w, parameters, bindings, inputs, failure)
    ensures !Conveys(w, parameters, bindings, inputs, kwargs)
  {
    hide Meaning, ByName;
    var i :| 0 <= i < |bindings|
      && Meaning(w, ByName(parameters)[bindings[i].0], bindings[i].1, inputs) == Err(failure);
    assert !Passes(kwargs, bindings[i].0, Meaning(w, ByName(parameters)[bindings[i].0], bindings[i].1, inputs));
  }

  lemma KwargsIff(w: World, parameters: seq<Parameter>, bindings: Bindings, inputs: Inputs, kwargs: Kwargs)
    requires ValidBindings(bindings) && Known(ByName(parameters), bindings)
    ensures RunnerKwargs(w, Payloads(ByName(parameters), bindings), inputs) == Ok(kwargs)
      <==> Conveys(w, parameters, bindings, inputs, kwargs)
  {
    hide RunnerKwargs, Payloads, Conveys, Fails, ByName;
    KwargsMean(w, parameters, bindings, inputs);
    var built := RunnerKwargs(w, Payloads(ByName(parameters), bindings), inputs);
    if built.Err? {
      FailsConveysNothing(w, parameters, bindings, inputs, built.error, kwargs);
    } else if Conveys(w, parameters, bindings, inputs, kwargs) {
      ConveysOnce(w, parameters, bindings, inputs, built.value, kwargs);
    }
  }

  // ---------------------------------------------------------------- the callable

  /** `module:Class` names this class; the split is at the first colon. */
  predicate ClassAt(target: string, pyModule: string, qualname: string) {
    target == pyModule + ":" + qualname && ':' !in pyModule
  }

  lemma {:induction false} SplitIsAClass(target: string)
    ensures var split := SplitTarget(target); split.Some? ==> ClassAt(target, split.value.0, split.value.1)
  {
    if target != "" {
      assert target == [target[0]] + target[1..];
      if target[0] != ':' { SplitIsAClass(target[1..]); }
    }
  }

  lemma {:induction false} ClassIsSplit(pyModule: string, qualname: string)
    requires ':' !in pyModule
    ensures SplitTarget(pyModule + ":" + qualname) == Some((pyModule, qualname))
  {
    var target := pyModule + ":" + qualname;
    if pyModule == "" {
      assert target[1..] == qualname;
    } else {
      assert target[1..] == pyModule[1..] + ":" + qualname;
      ClassIsSplit(pyModule[1..], qualname);
      assert pyModule == [pyModule[0]] + pyModule[1..];
    }
  }

  lemma SplitTargetSpec(target: string, pyModule: string, qualname: string)
    ensures SplitTarget(target) == Some((pyModule, qualname)) <==> ClassAt(target, pyModule, qualname)
  {
    SplitIsAClass(target);
    if ClassAt(target, pyModule, qualname) { ClassIsSplit(pyModule, qualname); }
  }

  predicate Constructs(w: World, pyModule: string, qualname: string, kwargs: Kwargs, instance: Value) {
    var cls := w.lookup(pyModule, qualname);
    cls.Some? && w.call(cls.value, kwargs) == Some(instance)
  }

  predicate Answers(w: World, callee: Option<Value>, kwargs: Kwargs, result: Value) {
    callee.Some? && w.call(callee.value, kwargs) == Some(result)
  }

  /** The callable, called with these arguments, gives this result. */
  ghost predicate Invokes(w: World, callable: Callable, constructorKwargs: Kwargs, kwargs: Kwargs, result: Value) {
    if callable.kind.InstanceMethod? then
      exists pyModule, qualname, instance ::
        && callable.classTarget.Some? && ClassAt(callable.classTarget.value, pyModule, qualname)
        && Constructs(w, pyModule, qualname, constructorKwargs, instance)
        && callable.methodName.Some? && Answers(w, w.attribute(instance, callable.methodName.value), kwargs, result)
    else Answers(w, w.lookup(callable.pyModule, callable.qualname), kwargs, result)
  }

  lemma InvokeIff(w: World, callable: Callable, target: Target, constructorKwargs: Kwargs, kwargs: Kwargs,
                  result: Value)
    requires TargetPayload(callable) == Some(target) && (callable.kind.InstanceMethod? ==> Truthy(callable.classTarget))
    ensures Invoke(w, target, constructorKwargs, kwargs) == Ok(result)
      <==> Invokes(w, callable, constructorKwargs, kwargs, result)
  {
    hide SplitTarget, ClassAt;
    if callable.kind.InstanceMethod? {
      var split := target.class_.value;
      SplitTargetSpec(callable.classTarget.value, split.0, split.1);
      if Invokes(w, callable, constructorKwargs, kwargs, result) {
        var pyModule, qualname, instance :|
          && callable.classTarget.Some? && ClassAt(callable.classTarget.value, pyModule, qualname)
          && Constructs(w, pyModule, qualname, constructorKwargs, instance)
          && callable.methodName.Some? && Answers(w, w.attribute(instance, callable.methodName.value), kwargs, result);
        SplitTargetSpec(callable.classTarget.value, pyModule, qualname);
      }
      if Invoke(w, target, constructorKwargs, kwargs) == Ok(result) {
        var instance := w.call(w.lookup(split.0, split.1).value, constructorKwargs).value;
        assert Constructs(w, split.0, split.1, constructorKwargs, instance);
      }
    }
  }

  // ---------------------------------------------------------------- outputs

  /** One part of a path leads from a value to the next: an item of a dictionary or a list, or an attribute. */
  predicate PartLeads(w: World, v: Value, part: Part, next: Value) {
    match part
    case Index(_) => w.item(v, part) == Some(next)
    case Key(name) => if v.Dict? then w.item(v, part) == Some(next) else w.attribute(v, name) == Some(next)
  }

  predicate IsTrace(w: World, path: seq<Part>, trace: seq<Value>) {
    |trace| == |path| + 1 && forall i :: 0 <= i < |path| ==> PartLeads(w, trace[i], path[i], trace[i + 1])
  }

  /** The whole path leads from one value to another. */
  ghost predicate Leads(w: World, start: Value, path: seq<Part>, end: Value) {
    exists trace :: IsTrace(w, path, trace) && trace[0] == start && trace[|path|] == end
  }

  /** The value an output specification takes from the result. */
  ghost predicate Picks(w: World, spec: OutputValue, result: Value, v: Value) {
    match spec.source
    case Return => v == result
    case ReturnPath => Leads(w, result, spec.path, v)
    case OutputConstant => v == spec.value
  }

  lemma {:induction false} LeadsIff(w: World, start: Value, path: seq<Part>, end: Value)
    ensures Extract(w, start, path) == Some(end) <==> Leads(w, start, path, end)
    decreases |path|
  {
    if path == [] {
      assert IsTrace(w, path, [start]);
    } else {
      var next := Step(w, start, path[0]);
      if next.Some? {
        LeadsIff(w, next.value, path[1..], end);
        if Leads(w, next.value, path[1..], end) { TraceGrows(w, start, path, next.value, end); }
      }
      if Leads(w, start, path, end) { TraceShrinks(w, start, path, end); }
    }
  }

  lemma TraceGrows(w: World, start: Value, path: seq<Part>, next: Value, end: Value)
    requires path != [] && PartLeads(w, start, path[0], next) && Leads(w, next, path[1..], end)
    ensures Leads(w, start, path, end)
  {
    hide PartLeads;
    var rest :| IsTrace(w, path[1..], rest) && rest[0] == next && rest[|path[1..]|] == end;
    var trace := [start] + rest;
    forall i | 0 <= i < |path| ensures PartLeads(w, trace[i], path[i], trace[i + 1]) {
      if i > 0 { assert PartLeads(w, rest[i - 1], path[1..][i - 1], rest[i]); }
    }
    assert IsTrace(w, path, trace);
  }

  lemma TraceShrinks(w: World, start: Value, path: seq<Part>, end: Value)
    requires path != [] && Leads(w, start, path, end)
    ensures var next := Step(w, start, path[0]); next.Some? && Leads(w, next.value, path[1..], end)
  {
    var trace :| IsTrace(w, path, trace) && trace[0] == start && trace[|path|] == end;
    assert PartLeads(w, trace[0], path[0], trace[1]);
    var rest := trace[1..];
    hide PartLeads;
    forall i | 0 <= i < |path[1..]| ensures PartLeads(w, rest[i], path[1..][i], rest[i + 1]) {
      assert PartLeads(w, trace[i + 1], path[i + 1], trace[i + 2]);
    }
    assert IsTrace(w, path[1..], rest);
  }

  lemma PicksIff(w: World, spec: OutputValue, result: Value, v: Value)
    ensures OutputOf(w, result, spec) == Ok(v) <==> Picks(w, spec, result, v)
  {
    hide Extract, Leads;
    LeadsIff(w, result, spec.path, v);
  }

  /** The text of a value in an attribute: text itself, decoded bytes, and JSON of anything else. */
  predicate Worded(w: World, v: Value, text: string) {
    match v
    case Text(t) => text == t
    case Bytes(bytes) => w.decode(bytes) == Some(text)
    case _ => w.dump(v) == Some(text)
  }

  /** The bytes of a value under an output codec. */
  predicate Encoded(w: World, v: Value, codec: Codec, content: seq<Byte>) {
    match codec
    case BytesCodec =>
      if v.Text? then w.encode(v.text) == Some(content)
      else (v == Bytes(content) || v == ByteArray(content))
    case TextCodec =>
      if v.Text? then w.encode(v.text) == Some(content)
      else w.show(v).Some? && w.encode(w.show(v).value) == Some(content)
    case JsonCodec => w.dump(v).Some? && w.encode(w.dump(v).value) == Some(content)
  }

  lemma EncodedIff(w: World, v: Value, codec: Codec, content: seq<Byte>)
    ensures EncodePayload(w, v, codec) == Ok(content) <==> Encoded(w, v, codec, content)
  {
  }

  /** Every output attribute is the text of the value its own specification picks. */
  ghost predicate Describes(w: World, metadata: map<string, OutputValue>, result: Value,
                            attributes: map<string, string>) {
    && attributes.Keys == metadata.Keys
    && forall name :: name in metadata ==> Described(w, metadata[name], result, attributes[name])
  }

  ghost predicate Described(w: World, spec: OutputValue, result: Value, text: string) {
    exists v :: Picks(w, spec, result, v) && Worded(w, v, text)
  }

  lemma DescribedIff(w: World, spec: OutputValue, result: Value, text: string)
    ensures Described(w, spec, result, text) <==>
      OutputOf(w, result, spec).Ok? && MetadataText(w, OutputOf(w, result, spec).value) == Some(text)
  {
    forall v ensures OutputOf(w, result, spec) == Ok(v) <==> Picks(w, spec, result, v) {
      PicksIff(w, spec, result, v);
    }
    hide OutputOf, Picks;
    var picked := OutputOf(w, result, spec);
    if picked.Ok? { assert Picks(w, spec, result, picked.value); }
  }

  lemma {:induction false} AttributesSpec(w: World, names: seq<string>, metadata: map<string, OutputValue>,
                                          result: Value)
    requires forall name :: name in names ==> name in metadata
    ensures match OutputAttributes(w, names, metadata, result)
      case Ok(attributes) => forall name ::
        name in names ==> name in attributes && Described(w, metadata[name], result, attributes[name])
      case Err(_) => exists name :: name in names && forall text :: !Described(w, metadata[name], result, text)
    decreases |names|
  {
    hide OutputOf, MetadataText, Described;
    if names != [] {
      var last := |names| - 1;
      assert names == names[..last] + [names[last]];
      AttributesSpec(w, names[..last], metadata, result);
      forall text { DescribedIff(w, metadata[names[last]], result, text); }
      assert names[last] in names;
    }
  }

  lemma DescribesOnce(w: World, metadata: map<string, OutputValue>, result: Value, a: map<string, string>,
                      b: map<string, string>)
    requires Describes(w, metadata, result, a) && Describes(w, metadata, result, b)
    ensures a == b
  {
    forall name | name in metadata ensures a[name] == b[name] {
      hide OutputOf, MetadataText, Described;
      DescribedIff(w, metadata[name], result, a[name]);
      DescribedIff(w, metadata[name], result, b[name]);
    }
  }

  lemma AttributesIff(w: World, metadata: map<string, OutputValue>, result: Value, attributes: map<string, string>)
    ensures OutputAttributes(w, Sorted(metadata.Keys), metadata, result) == Ok(attributes)
      <==> Describes(w, metadata, result, attributes)
  {
    hide OutputAttributes, Described;
    var names := Sorted(metadata.Keys);
    AttributesSpec(w, names, metadata, result);
    var built := OutputAttributes(w, names, metadata, result);
    if built.Ok? {
      assert Describes(w, metadata, result, built.value);
      if Describes(w, metadata, result, attributes) { DescribesOnce(w, metadata, result, attributes, built.value); }
    }
  }

  /** The content the contract asks for: the picked value, encoded, or what its policy says about None. */
  ghost predicate Contains(w: World, output: Output, original: seq<Byte>, result: Value, content: seq<Byte>) {
    exists v :: Picks(w, output.payload, result, v) &&
      match v
      case Nil => if output.nonePolicy == KeepOriginal then content == original else content == []
      case _ => Encoded(w, v, output.payload.codec, content)
  }

  lemma ContentIff(w: World, output: Output, original: seq<Byte>, result: Value, content: seq<Byte>)
    ensures Contains(w, output, original, result, content) <==>
      var picked := OutputOf(w, result, output.payload);
      && picked.Ok?
      && if picked.value.Nil? then content == (if output.nonePolicy.KeepOriginal? then original else [])
         else EncodePayload(w, picked.value, output.payload.codec) == Ok(content)
  {
    hide OutputOf, EncodePayload, Picks, Encoded;
    forall v ensures OutputOf(w, result, output.payload) == Ok(v) <==> Picks(w, output.payload, result, v) {
      PicksIff(w, output.payload, result, v);
    }
    var picked := OutputOf(w, result, output.payload);
    if picked.Ok? {
      assert Picks(w, output.payload, result, picked.value);
      EncodedIff(w, picked.value, output.payload.codec, content);
    }
  }

  lemma FinishIff(w: World, output: Output, original: seq<Byte>, result: Value, answer: Answer)
    ensures Finish(w, output, original, result) == Ok(answer) <==>
      Contains(w, output, original, result, answer.content) && Describes(w, output.metadata, result, answer.attributes)
  {
    hide OutputOf, EncodePayload, Describes, OutputAttributes, Contains;
    AttributesIff(w, output.metadata, result, answer.attributes);
    ContentIff(w, output, original, result, answer.content);
  }

  // ---------------------------------------------------------------- the whole contract

  /** The contract, read directly, turns these inputs into this answer. */
  ghost predicate Means(w: World, c: Contract, callable: Callable, catalog: Catalog, content: seq<Byte>,
                        attributes: map<string, Value>, parameters: map<string, Value>, answer: Answer)
    requires Ready(c, callable, catalog)
  {
    var inputs := Inputs(Bytes(content), attributes, parameters);
    exists constructorKwargs, kwargs, result ::
      && Conveys(w, ConstructorDefs(callable, catalog), c.constructorArguments, inputs, constructorKwargs)
      && Conveys(w, callable.parameters, c.arguments, inputs, kwargs)
      && Invokes(w, callable, constructorKwargs, kwargs, result)
      && Contains(w, c.output, content, result, answer.content)
      && Describes(w, c.output.metadata, result, answer.attributes)
  }

  lemma PlanParts(c: Contract, catalog: Catalog)
    requires ValidContract(c) && Compile(c, catalog).Ok?
    ensures Selected(c, catalog).Ok? && Ready(c, Selected(c, catalog).value, catalog)
    ensures var (plan, callable) := (Compile(c, catalog).value, Selected(c, catalog).value);
      && plan.constructorArguments == Payloads(ByName(ConstructorDefs(callable, catalog)), c.constructorArguments)
      && plan.arguments == Payloads(ByName(callable.parameters), c.arguments)
      && plan.output == c.output && TargetPayload(callable) == Some(plan.target)
      && (callable.kind.InstanceMethod? ==> Truthy(callable.classTarget))
  {
    hide Selected, ValidBindings, Known, TargetPayload, Declared, Payloads, AsMap, InKeyOrder;
    SelectedIsReady(c, catalog);
  }

  /**
   * Compilation preserves meaning: for every contract that compiles and every input, the
   * generated adapter answers exactly what the contract, read directly, means.
   */
  lemma CompilationPreservesMeaning(w: World, c: Contract, catalog: Catalog, content: seq<Byte>,
                                    attributes: map<string, Value>, parameters: map<string, Value>, answer: Answer)
    requires ValidContract(c) && Compile(c, catalog).Ok?
    ensures Selected(c, catalog).Ok? && Ready(c, Selected(c, catalog).value, catalog)
    ensures Process(w, Compile(c, catalog).value, content, attributes, parameters) == Ok(answer) <==>
      Means(w, c, Selected(c, catalog).value, catalog, content, attributes, parameters, answer)
  {
    hide Compile, Selected, Ready, ValidContract, RunnerKwargs, Payloads, ByName, ConstructorDefs, Conveys, Invoke;
    hide Invokes, Finish, Contains, Describes, TargetPayload;
    PlanParts(c, catalog);
    var (plan, callable) := (Compile(c, catalog).value, Selected(c, catalog).value);
    var inputs := Inputs(Bytes(content), attributes, parameters);
    ReadyParts(c, callable, catalog);
    forall kwargs
      ensures RunnerKwargs(w, plan.constructorArguments, inputs) == Ok(kwargs) <==>
        Conveys(w, ConstructorDefs(callable, catalog), c.constructorArguments, inputs, kwargs)
    {
      KwargsIff(w, ConstructorDefs(callable, catalog), c.constructorArguments, inputs, kwargs);
    }
    forall kwargs
      ensures RunnerKwargs(w, plan.arguments, inputs) == Ok(kwargs)
        <==> Conveys(w, callable.parameters, c.arguments, inputs, kwargs)
    {
      KwargsIff(w, callable.parameters, c.arguments, inputs, kwargs);
    }
    forall constructorKwargs, kwargs, result
      ensures Invoke(w, plan.target, constructorKwargs, kwargs) == Ok(result)
        <==> Invokes(w, callable, constructorKwargs, kwargs, result)
    {
      InvokeIff(w, callable, plan.target, constructorKwargs, kwargs, result);
    }
    forall result
      ensures Finish(w, c.output, content, result) == Ok(answer) <==>
        Contains(w, c.output, content, result, answer.content)
          && Describes(w, c.output.metadata, result, answer.attributes)
    {
      FinishIff(w, c.output, content, result, answer);
    }
  }

  lemma ReadyParts(c: Contract, callable: Callable, catalog: Catalog)
    requires Ready(c, callable, catalog)
    ensures ValidBindings(c.constructorArguments) && ValidBindings(c.arguments)
    ensures Known(ByName(ConstructorDefs(callable, catalog)), c.constructorArguments)
    ensures Known(ByName(callable.parameters), c.arguments)
  {
  }

  // ---------------------------------------------------------------- paths and codecs

  /** Following a long path is following its first part, then the rest. */
  lemma {:induction false} PathsCompose(w: World, v: Value, first: seq<Part>, rest: seq<Part>)
    ensures Extract(w, v, first + rest)
      == (var middle := Extract(w, v, first); if middle.None? then None else Extract(w, middle.value, rest))
    decreases |first|
  {
    if first == [] {
      assert first + rest == rest;
    } else {
      assert (first + rest)[1..] == first[1..] + rest;
      var next := Step(w, v, first[0]);
      if next.Some? { PathsCompose(w, next.value, first[1..], rest); }
    }
  }

  /** UTF-8 decoding is undone by encoding, as far as it succeeds. */
  ghost predicate Utf8Lawful(w: World) {
    forall bytes :: w.decode(bytes).Some? ==> w.encode(w.decode(bytes).value) == Some(bytes)
  }

  /** Reading what was printed of a parsed value gives the value back. */
  ghost predicate JsonLawful(w: World) {
    forall text :: w.parse(text).Some? && w.dump(w.parse(text).value).Some? ==>
      w.parse(w.dump(w.parse(text).value).value) == w.parse(text)
  }

  /** Encoding is undone by decoding. */
  ghost predicate Utf8Reads(w: World) {
    forall text :: w.encode(text).Some? ==> w.decode(w.encode(text).value) == Some(text)
  }

  /**
   * A payload that goes in and comes out under one codec is unchanged: bytes and text byte for
   * byte, and JSON up to its layout, so that whoever reads it next gets the same value.
   */
  lemma PayloadRoundTrip(w: World, content: seq<Byte>, codec: Codec)
    requires Utf8Lawful(w) && Utf8Reads(w) && JsonLawful(w) && Decode(w, Bytes(content), codec).Ok?
    ensures var v := Decode(w, Bytes(content), codec).value;
      && NativeDecode(w, ByteArray(content), codec) == Ok(v)
      && (!codec.JsonCodec? ==> EncodePayload(w, v, codec) == Ok(content))
      && (EncodePayload(w, v, codec).Ok? ==> Decode(w, Bytes(EncodePayload(w, v, codec).value), codec) == Ok(v))
  {
    if codec.JsonCodec? {
      var text := w.decode(content).value;
      assert w.parse(text).Some?;
    }
  }
}
