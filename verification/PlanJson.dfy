/** The JSON tree of a plan, and that the text of a plan is what json.dumps makes of it. */
module PlanJson {
  import opened Prelude
  import opened Names
  import opened Contracts
  import opened Compiler
  import opened TextReplace
  import opened PlanText
  import opened LiteralReading
  import opened JsonText

  // ---------------------------------------------------------------- trees

  function ValueJson(form: Form, v: Value): Json {
    match v
    case Bool(b) => JBool(b)
    case Number(n, floating) => JNumeral(form.numeral(n, floating))
    case Text(text) => JString(text)
    case List(elements) =>
      JArray(seq(|elements|, i requires 0 <= i < |elements| => ValueJson(form, elements[i])))
    case Dict(members) =>
      var keys := Sorted(members.Keys);
      JObject(seq(|keys|, i requires 0 <= i < |keys| => (keys[i], ValueJson(form, members[keys[i]]))))
    case _ => JNull
  }

  function MaybeJson(text: Option<string>): Json {
    if text.Some? then JString(text.value) else JNull
  }

  function MapJson<T>(members: map<string, T>, tree: T -> Json): Json {
    var keys := Sorted(members.Keys);
    JObject(seq(|keys|, i requires 0 <= i < |keys| => (keys[i], tree(members[keys[i]]))))
  }

  function TextsJson(texts: seq<string>): Json {
    JArray(seq(|texts|, i requires 0 <= i < |texts| => JString(texts[i])))
  }

  function CodecJson(codec: Codec): Json {
    match codec
    case BytesCodec => JString("bytes")
    case TextCodec => JString("text")
    case JsonCodec => JString("json")
  }

  function SourceJson(source: Source): Json {
    match source
    case InputPayload => JString("input.payload")
    case InputMetadata => JString("input.metadata")
    case OperatorParameter => JString("operator.parameter")
    case Constant => JString("constant")
  }

  function DefaultFields(form: Form, b: CompiledBinding): seq<(string, Json)> {
    if b.source.OperatorParameter? then
      [("default", ValueJson(form, b.default)), ("has_default", JBool(b.hasDefault))]
    else []
  }

  function BindingJson(form: Form, b: CompiledBinding): Json {
    JObject([("codec", CodecJson(b.codec)), ("constant", ValueJson(form, b.constant))] + DefaultFields(form, b)
            + [("metadata_key", MaybeJson(b.metadataKey)), ("parameter_key", MaybeJson(b.parameterKey)),
               ("required", JBool(b.required)), ("source", SourceJson(b.source))])
  }

  function BindingsJson(form: Form, bindings: CompiledBindings): Json {
    MapJson(bindings, b => BindingJson(form, b))
  }

  function PartJson(form: Form, part: Part): Json {
    match part
    case Key(name) => JString(name)
    case Index(index) => JNumeral(form.numeral(index as real, false))
  }

  function PathJson(form: Form, path: seq<Part>): Json {
    JArray(seq(|path|, i requires 0 <= i < |path| => PartJson(form, path[i])))
  }

  function OutputSourceJson(source: OutputSource): Json {
    match source
    case Return => JString("return")
    case ReturnPath => JString("return.path")
    case OutputConstant => JString("constant")
  }

  function OutputValueJson(form: Form, v: OutputValue): Json {
    JObject([("codec", CodecJson(v.codec)), ("path", PathJson(form, v.path)),
             ("source", OutputSourceJson(v.source)), ("value", ValueJson(form, v.value))])
  }

  function PolicyJson(policy: NonePolicy): Json {
    JString(if policy.KeepOriginal? then "keep-original" else "empty")
  }

  function OutputJson(form: Form, output: Output): Json {
    JObject([("metadata", MapJson(output.metadata, v => OutputValueJson(form, v))),
             ("none_policy", PolicyJson(output.nonePolicy)), ("payload", OutputValueJson(form, output.payload))])
  }

  function ParameterJson(form: Form, p: CompiledParameter): Json {
    JObject([("default", ValueJson(form, p.default)), ("description", JString(p.description)),
             ("display_name", JString(p.displayName)), ("has_default", JBool(p.hasDefault)), ("key", JString(p.key)),
             ("required", JBool(p.required))])
  }

  function ParametersJson(form: Form, parameters: seq<CompiledParameter>): Json {
    JArray(seq(|parameters|, i requires 0 <= i < |parameters| => ParameterJson(form, parameters[i])))
  }

  function KindJson(kind: CallableKind): Json {
    match kind
    case Function => JString("function")
    case InstanceMethod => JString("instance-method")
    case StaticMethod => JString("static-method")
    case ClassMethod => JString("class-method")
  }

  function ClassFields(class_: Option<(string, string)>): seq<(string, Json)> {
    if class_.Some? then
      [("class_module", JString(class_.value.0)), ("class_qualname", JString(class_.value.1))]
    else []
  }

  function TargetJson(target: Target): Json {
    JObject(ClassFields(target.class_)
            + [("class_target", MaybeJson(target.classTarget)), ("kind", KindJson(target.kind)),
               ("method_name", MaybeJson(target.methodName)), ("module", JString(target.pyModule)),
               ("qualname", JString(target.qualname))])
  }

  /** ExecutionPlan.model_dump(mode="json"), its fields in the order of their names. */
  function PlanTree(form: Form, plan: Plan): Json {
    JObject([("arguments", BindingsJson(form, plan.arguments)), ("compiler_version", JString("virtual-direct-v1")),
             ("constructor_arguments", BindingsJson(form, plan.constructorArguments)),
             ("contract_sha256", JString(form.hex(plan.digest))), ("input_metadata", TextsJson(plan.inputMetadata)),
             ("output", OutputJson(form, plan.output)), ("output_metadata", TextsJson(plan.outputMetadata)),
             ("parameters", ParametersJson(form, plan.parameters)), ("python_path", JString(plan.origin.pythonPath)),
             ("source_ref", MaybeJson(plan.origin.ref)), ("source_revision", JString(plan.origin.revision)),
             ("target", TargetJson(plan.target))])
  }

  // ---------------------------------------------------------------- pieces that say a tree

  /** The pieces are the text of this tree. */
  predicate Says(pieces: Pieces, j: Json) {
    Write(pieces) == Dump(j)
  }

  predicate SaysField(pieces: Pieces, name: string, j: Json) {
    Write(pieces) == DumpString(name) + ":" + Dump(j)
  }

  lemma {:induction false} WriteJoin(a: Pieces, b: Pieces)
    ensures Write(a + b) == Write(a) + Write(b)
    decreases |a|
  {
    if a == [] {
      assert a + b == b;
    } else {
      assert (a + b)[1..] == a[1..] + b;
      WriteJoin(a[1..], b);
    }
  }

  lemma WriteOne(p: Piece)
    ensures Write([p]) == Written(p)
  {
    assert [p][1..] == [];
  }

  lemma SaysQuoted(text: string)
    ensures Says([Quoted(text)], JString(text))
  {
    WriteOne(Quoted(text));
  }

  lemma SaysMark(mark: CleanText, j: Json)
    requires mark == Dump(j)
    ensures Says([Mark(mark)], j)
  {
    WriteOne(Mark(mark));
  }

  lemma SaysMaybe(text: Option<string>)
    ensures Says(MaybeText(text), MaybeJson(text))
  {
    if text.Some? { SaysQuoted(text.value); } else { SaysMark("null", JNull); }
  }

  lemma SaysTruth(b: bool)
    ensures Says(Truth(b), JBool(b))
  {
    SaysMark(if b then "true" else "false", JBool(b));
  }

  lemma {:induction false} UnescapedStays(word: string)
    requires Unescaped(word)
    ensures Encode(JsonEscape, word) == word
  {
    if word != "" {
      UnescapedStays(word[1..]);
      assert word == [word[0]] + word[1..];
    }
  }

  lemma SaysWord(token: Token)
    ensures Says(Word(token), JString(token))
  {
    UnescapedStays(token);
    SaysMark("\"" + token + "\"", JString(token));
  }

  lemma {:induction false} SaysSeparated(parts: seq<Pieces>, texts: seq<string>)
    requires |parts| == |texts| && forall i :: 0 <= i < |parts| ==> Write(parts[i]) == texts[i]
    ensures Write(Separated(parts)) == Joined(texts)
    decreases |parts|
  {
    hide Written;
    if |parts| > 1 {
      SaysSeparated(parts[1..], texts[1..]);
      WriteJoin(parts[0] + [Mark(",")], Separated(parts[1..]));
      WriteJoin(parts[0], [Mark(",")]);
      CommaIsWritten();
    }
  }

  lemma CommaIsWritten()
    ensures Write([Mark(",")]) == "," && Write([Mark("[")]) == "[" && Write([Mark("]")]) == "]"
    ensures Write([Mark("{")]) == "{" && Write([Mark("}")]) == "}" && Write([Mark(":")]) == ":"
  {
    WriteOne(Mark(","));
    WriteOne(Mark("["));
    WriteOne(Mark("]"));
    WriteOne(Mark("{"));
    WriteOne(Mark("}"));
    WriteOne(Mark(":"));
  }

  lemma SaysArr(parts: seq<Pieces>, items: seq<Json>)
    requires |parts| == |items| && forall i :: 0 <= i < |parts| ==> Says(parts[i], items[i])
    ensures Says(Arr(parts), JArray(items))
  {
    hide Write, Dump;
    SaysSeparated(parts, DumpItems(items));
    WriteJoin([Mark("[")] + Separated(parts), [Mark("]")]);
    WriteJoin([Mark("[")], Separated(parts));
    CommaIsWritten();
    DumpArray(items);
  }

  lemma SaysObj(parts: seq<Pieces>, fields: seq<(string, Json)>)
    requires |parts| == |fields| && forall i :: 0 <= i < |parts| ==> SaysField(parts[i], fields[i].0, fields[i].1)
    ensures Says(Obj(parts), JObject(fields))
  {
    hide Write, Dump, DumpString;
    SaysSeparated(parts, DumpFields(fields));
    WriteJoin([Mark("{")] + Separated(parts), [Mark("}")]);
    WriteJoin([Mark("{")], Separated(parts));
    CommaIsWritten();
    DumpObject(fields);
  }

  lemma FieldSays(name: FieldName, value: Pieces, j: Json)
    requires Says(value, j)
    ensures SaysField(Field(name, value), name, j)
  {
    PlainEncodes(_ => false, '"', name);
    var mark := Field(name, value)[..1];
    assert Field(name, value) == mark + value;
    WriteOne(mark[0]);
    WriteJoin(mark, value);
    hide Write, Dump;
    assert Write(mark) == "\"" + name + "\":";
    assert "\"" + name + "\":" == DumpString(name) + ":";
  }

  lemma EntrySays(key: string, value: Pieces, j: Json)
    requires Says(value, j)
    ensures SaysField(Entry(key, value), key, j)
  {
    WriteJoin([Quoted(key)] + [Mark(":")], value);
    WriteJoin([Quoted(key)], [Mark(":")]);
    WriteOne(Quoted(key));
    CommaIsWritten();
    assert Entry(key, value) == [Quoted(key)] + [Mark(":")] + value;
    hide Write, Dump;
  }

  // ---------------------------------------------------------------- the text of a plan says its tree

  predicate ValueIsSaid(form: Form, v: Value) {
    Says(ValuePieces(form, v), ValueJson(form, v))
  }

  lemma {:induction false} ValueSays(form: Form, v: Value)
    ensures ValueIsSaid(form, v)
    decreases v
  {
    hide Says;
    if v.List? {
      forall i | 0 <= i < |v.elements| ensures ValueIsSaid(form, v.elements[i]) {
        ValueSays(form, v.elements[i]);
      }
      ListSays(form, v.elements);
    } else if v.Dict? {
      forall key | key in v.members ensures ValueIsSaid(form, v.members[key]) {
        ValueSays(form, v.members[key]);
      }
      DictSays(form, v.members);
    } else {
      ScalarSays(form, v);
    }
  }

  lemma ScalarSays(form: Form, v: Value)
    requires !v.List? && !v.Dict?
    ensures ValueIsSaid(form, v)
  {
    hide Says;
    if v.Bool? { SaysTruth(v.b); }
    else if v.Number? { SaysMark(form.numeral(v.n, v.floating), JNumeral(form.numeral(v.n, v.floating))); }
    else if v.Text? { SaysQuoted(v.text); }
    else { SaysMark("null", JNull); }
  }

  lemma ListSays(form: Form, elements: seq<Value>)
    requires forall i :: 0 <= i < |elements| ==> ValueIsSaid(form, elements[i])
    ensures ValueIsSaid(form, List(elements))
  {
    hide Says;
    var parts := seq(|elements|, i requires 0 <= i < |elements| => ValuePieces(form, elements[i]));
    var items := seq(|elements|, i requires 0 <= i < |elements| => ValueJson(form, elements[i]));
    SaysArr(parts, items);
  }

  lemma EntriesSay(form: Form, members: map<string, Value>, keys: seq<string>)
    requires forall key :: key in keys ==> key in members
    requires forall key :: key in members ==> ValueIsSaid(form, members[key])
    ensures forall i :: 0 <= i < |keys| ==>
      SaysField(Entry(keys[i], ValuePieces(form, members[keys[i]])), keys[i], ValueJson(form, members[keys[i]]))
  {
    hide Says, SaysField, ValuePieces, ValueJson, Entry;
    forall i | 0 <= i < |keys|
      ensures SaysField(Entry(keys[i], ValuePieces(form, members[keys[i]])), keys[i],
                        ValueJson(form, members[keys[i]]))
    {
      assert keys[i] in members && ValueIsSaid(form, members[keys[i]]);
      EntrySays(keys[i], ValuePieces(form, members[keys[i]]), ValueJson(form, members[keys[i]]));
    }
  }

  lemma DictPieces(form: Form, members: map<string, Value>) returns (parts: seq<Pieces>)
    ensures ValuePieces(form, Dict(members)) == Obj(parts)
    ensures |parts| == |Sorted(members.Keys)| && forall i :: 0 <= i < |parts| ==>
      var key := Sorted(members.Keys)[i]; key in members && parts[i] == Entry(key, ValuePieces(form, members[key]))
  {
    hide Obj, Entry;
    var keys := Sorted(members.Keys);
    parts := seq(|keys|, i requires 0 <= i < |keys| => Entry(keys[i], ValuePieces(form, members[keys[i]])));
  }

  lemma DictFields(form: Form, members: map<string, Value>) returns (fields: Fields)
    ensures ValueJson(form, Dict(members)) == JObject(fields)
    ensures |fields| == |Sorted(members.Keys)| && forall i :: 0 <= i < |fields| ==>
      var key := Sorted(members.Keys)[i]; key in members && fields[i] == (key, ValueJson(form, members[key]))
  {
    var keys := Sorted(members.Keys);
    fields := seq(|keys|, i requires 0 <= i < |keys| => (keys[i], ValueJson(form, members[keys[i]])));
  }

  lemma DictSays(form: Form, members: map<string, Value>)
    requires forall key :: key in members ==> ValueIsSaid(form, members[key])
    ensures ValueIsSaid(form, Dict(members))
  {
    hide Says, SaysField, Entry, Obj, ValuePieces, ValueJson;
    EntriesSay(form, members, Sorted(members.Keys));
    var parts := DictPieces(form, members);
    var fields := DictFields(form, members);
    SaysObj(parts, fields);
  }

  lemma MapSays<T>(members: map<string, T>, write: T -> Pieces, tree: T -> Json)
    requires forall key :: key in members ==> Says(write(members[key]), tree(members[key]))
    ensures Says(MapPieces(members, write), MapJson(members, tree))
  {
    hide Says, SaysField;
    var keys := Sorted(members.Keys);
    var parts := seq(|keys|, i requires 0 <= i < |keys| => Entry(keys[i], write(members[keys[i]])));
    var fields := seq(|keys|, i requires 0 <= i < |keys| => (keys[i], tree(members[keys[i]])));
    forall i | 0 <= i < |parts| ensures SaysField(parts[i], fields[i].0, fields[i].1) {
      assert keys[i] in members;
      EntrySays(keys[i], write(members[keys[i]]), tree(members[keys[i]]));
    }
    SaysObj(parts, fields);
  }

  lemma TextsSay(texts: seq<string>)
    ensures Says(Texts(texts), TextsJson(texts))
  {
    hide Says;
    var parts := seq(|texts|, i requires 0 <= i < |texts| => [Quoted(texts[i])]);
    var items := seq(|texts|, i requires 0 <= i < |texts| => JString(texts[i]));
    forall i | 0 <= i < |parts| ensures Says(parts[i], items[i]) {
      SaysQuoted(texts[i]);
    }
    SaysArr(parts, items);
  }

  lemma CodecSays(codec: Codec)
    ensures Says(CodecPieces(codec), CodecJson(codec))
  {
    hide Says, Word;
    match codec
    case BytesCodec => SaysWord("bytes");
    case TextCodec => SaysWord("text");
    case JsonCodec => SaysWord("json");
  }

  lemma SourceSays(source: Source)
    ensures Says(SourcePieces(source), SourceJson(source))
  {
    hide Says, Word;
    match source
    case InputPayload => SaysWord("input.payload");
    case InputMetadata => SaysWord("input.metadata");
    case OperatorParameter => SaysWord("operator.parameter");
    case Constant => SaysWord("constant");
  }

  lemma OutputSourceSays(source: OutputSource)
    ensures Says(OutputSourcePieces(source), OutputSourceJson(source))
  {
    hide Says, Word;
    match source
    case Return => SaysWord("return");
    case ReturnPath => SaysWord("return.path");
    case OutputConstant => SaysWord("constant");
  }

  lemma PolicySays(policy: NonePolicy)
    ensures Says(PolicyPieces(policy), PolicyJson(policy))
  {
    hide Says, Word;
    if policy.KeepOriginal? {
      SaysWord("keep-original");
    } else {
      SaysWord("empty");
    }
  }

  lemma KindSays(kind: CallableKind)
    ensures Says(KindPieces(kind), KindJson(kind))
  {
    hide Says, Word;
    match kind
    case Function => SaysWord("function");
    case InstanceMethod => SaysWord("instance-method");
    case StaticMethod => SaysWord("static-method");
    case ClassMethod => SaysWord("class-method");
  }

  lemma BindingSays(form: Form, b: CompiledBinding)
    ensures Says(BindingPieces(form, b), BindingJson(form, b))
  {
    hide Says, SaysField, Field, CodecPieces, ValuePieces, MaybeText, Truth, SourcePieces, CodecJson, ValueJson;
    hide MaybeJson, SourceJson;
    CodecSays(b.codec);
    ValueSays(form, b.constant);
    ValueSays(form, b.default);
    SaysTruth(b.hasDefault);
    SaysMaybe(b.metadataKey);
    SaysMaybe(b.parameterKey);
    SaysTruth(b.required);
    SourceSays(b.source);
    FieldSays("codec", CodecPieces(b.codec), CodecJson(b.codec));
    FieldSays("constant", ValuePieces(form, b.constant), ValueJson(form, b.constant));
    FieldSays("default", ValuePieces(form, b.default), ValueJson(form, b.default));
    FieldSays("has_default", Truth(b.hasDefault), JBool(b.hasDefault));
    FieldSays("metadata_key", MaybeText(b.metadataKey), MaybeJson(b.metadataKey));
    FieldSays("parameter_key", MaybeText(b.parameterKey), MaybeJson(b.parameterKey));
    FieldSays("required", Truth(b.required), JBool(b.required));
    FieldSays("source", SourcePieces(b.source), SourceJson(b.source));
    SaysObj([Field(CODEC, CodecPieces(b.codec)), Field(CONSTANT, ValuePieces(form, b.constant))]
            + DefaultPieces(form, b)
            + [Field(METADATA_KEY, MaybeText(b.metadataKey)), Field(PARAMETER_KEY, MaybeText(b.parameterKey)),
               Field(REQUIRED, Truth(b.required)), Field(SOURCE, SourcePieces(b.source))],
            [("codec", CodecJson(b.codec)), ("constant", ValueJson(form, b.constant))] + DefaultFields(form, b)
            + [("metadata_key", MaybeJson(b.metadataKey)), ("parameter_key", MaybeJson(b.parameterKey)),
               ("required", JBool(b.required)), ("source", SourceJson(b.source))]);
  }

  lemma BindingsSay(form: Form, bindings: CompiledBindings)
    ensures Says(BindingsPieces(form, bindings), BindingsJson(form, bindings))
  {
    hide Says, BindingPieces, BindingJson;
    forall name | name in bindings
      ensures Says(BindingPieces(form, bindings[name]), BindingJson(form, bindings[name]))
    {
      BindingSays(form, bindings[name]);
    }
    MapSays(bindings, b => BindingPieces(form, b), b => BindingJson(form, b));
  }

  lemma PartSays(form: Form, part: Part)
    ensures Says(PartPieces(form, part), PartJson(form, part))
  {
    match part
    case Key(name) => SaysQuoted(name);
    case Index(index) =>
      SaysMark(form.numeral(index as real, false), JNumeral(form.numeral(index as real, false)));
  }

  lemma OutputValueSays(form: Form, v: OutputValue)
    ensures Says(OutputValuePieces(form, v), OutputValueJson(form, v))
  {
    hide Says, SaysField, Field, CodecPieces, ValuePieces, OutputSourcePieces, CodecJson, ValueJson, OutputSourceJson;
    hide PartPieces, PartJson;
    var parts := seq(|v.path|, i requires 0 <= i < |v.path| => PartPieces(form, v.path[i]));
    var items := PathJson(form, v.path).items;
    forall i | 0 <= i < |parts| ensures Says(parts[i], items[i]) {
      PartSays(form, v.path[i]);
    }
    SaysArr(parts, items);
    CodecSays(v.codec);
    OutputSourceSays(v.source);
    ValueSays(form, v.value);
    FieldSays("codec", CodecPieces(v.codec), CodecJson(v.codec));
    FieldSays("path", Arr(parts), JArray(items));
    FieldSays("source", OutputSourcePieces(v.source), OutputSourceJson(v.source));
    FieldSays("value", ValuePieces(form, v.value), ValueJson(form, v.value));
    SaysObj([Field(CODEC, CodecPieces(v.codec)), Field(PATH, Arr(parts)), Field(SOURCE, OutputSourcePieces(v.source)),
             Field(VALUE, ValuePieces(form, v.value))],
            [("codec", CodecJson(v.codec)), ("path", JArray(items)), ("source", OutputSourceJson(v.source)),
             ("value", ValueJson(form, v.value))]);
  }

  lemma OutputSays(form: Form, output: Output)
    ensures Says(OutputPieces(form, output), OutputJson(form, output))
  {
    hide Says, SaysField, Field, OutputValuePieces, OutputValueJson, PolicyPieces, PolicyJson, MapPieces, MapJson;
    forall name | name in output.metadata
      ensures Says(OutputValuePieces(form, output.metadata[name]), OutputValueJson(form, output.metadata[name]))
    {
      OutputValueSays(form, output.metadata[name]);
    }
    var (pieces, tree) := (MapPieces(output.metadata, v => OutputValuePieces(form, v)),
      MapJson(output.metadata, v => OutputValueJson(form, v)));
    MapSays(output.metadata, v => OutputValuePieces(form, v), v => OutputValueJson(form, v));
    PolicySays(output.nonePolicy);
    OutputValueSays(form, output.payload);
    FieldSays("metadata", pieces, tree);
    FieldSays("none_policy", PolicyPieces(output.nonePolicy), PolicyJson(output.nonePolicy));
    FieldSays("payload", OutputValuePieces(form, output.payload), OutputValueJson(form, output.payload));
    SaysObj([Field(METADATA, pieces), Field(NONE_POLICY, PolicyPieces(output.nonePolicy)),
             Field(PAYLOAD, OutputValuePieces(form, output.payload))],
            [("metadata", tree), ("none_policy", PolicyJson(output.nonePolicy)),
             ("payload", OutputValueJson(form, output.payload))]);
  }

  lemma ParameterSays(form: Form, p: CompiledParameter)
    ensures Says(ParameterPieces(form, p), ParameterJson(form, p))
  {
    hide Says, SaysField, Field, ValuePieces, Truth, ValueJson;
    ValueSays(form, p.default);
    SaysQuoted(p.description);
    SaysQuoted(p.displayName);
    SaysTruth(p.hasDefault);
    SaysQuoted(p.key);
    SaysTruth(p.required);
    FieldSays("default", ValuePieces(form, p.default), ValueJson(form, p.default));
    FieldSays("description", [Quoted(p.description)], JString(p.description));
    FieldSays("display_name", [Quoted(p.displayName)], JString(p.displayName));
    FieldSays("has_default", Truth(p.hasDefault), JBool(p.hasDefault));
    FieldSays("key", [Quoted(p.key)], JString(p.key));
    FieldSays("required", Truth(p.required), JBool(p.required));
    SaysObj([Field(DEFAULT, ValuePieces(form, p.default)), Field(DESCRIPTION, [Quoted(p.description)]),
             Field(DISPLAY_NAME, [Quoted(p.displayName)]), Field(HAS_DEFAULT, Truth(p.hasDefault)),
             Field(KEY, [Quoted(p.key)]), Field(REQUIRED, Truth(p.required))],
            [("default", ValueJson(form, p.default)), ("description", JString(p.description)),
             ("display_name", JString(p.displayName)), ("has_default", JBool(p.hasDefault)), ("key", JString(p.key)),
             ("required", JBool(p.required))]);
  }

  lemma ParametersSay(form: Form, parameters: seq<CompiledParameter>)
    ensures Says(ParametersPieces(form, parameters), ParametersJson(form, parameters))
  {
    hide Says, ParameterPieces, ParameterJson;
    var parts := seq(|parameters|, i requires 0 <= i < |parameters| => ParameterPieces(form, parameters[i]));
    var items := seq(|parameters|, i requires 0 <= i < |parameters| => ParameterJson(form, parameters[i]));
    forall i | 0 <= i < |parts| ensures Says(parts[i], items[i]) {
      ParameterSays(form, parameters[i]);
    }
    SaysArr(parts, items);
  }

  lemma TargetSays(form: Form, target: Target)
    ensures Says(TargetPieces(target), TargetJson(target))
  {
    hide Says, SaysField, Field, MaybeText, KindPieces, MaybeJson, KindJson;
    if target.class_.Some? {
      SaysQuoted(target.class_.value.0);
      SaysQuoted(target.class_.value.1);
      FieldSays("class_module", [Quoted(target.class_.value.0)], JString(target.class_.value.0));
      FieldSays("class_qualname", [Quoted(target.class_.value.1)], JString(target.class_.value.1));
    }
    SaysMaybe(target.classTarget);
    KindSays(target.kind);
    SaysMaybe(target.methodName);
    SaysQuoted(target.pyModule);
    SaysQuoted(target.qualname);
    FieldSays("class_target", MaybeText(target.classTarget), MaybeJson(target.classTarget));
    FieldSays("kind", KindPieces(target.kind), KindJson(target.kind));
    FieldSays("method_name", MaybeText(target.methodName), MaybeJson(target.methodName));
    FieldSays("module", [Quoted(target.pyModule)], JString(target.pyModule));
    FieldSays("qualname", [Quoted(target.qualname)], JString(target.qualname));
    SaysObj(ClassPieces(target.class_)
            + [Field(CLASS_TARGET, MaybeText(target.classTarget)), Field(KIND, KindPieces(target.kind)),
               Field(METHOD_NAME, MaybeText(target.methodName)), Field(MODULE, [Quoted(target.pyModule)]),
               Field(QUALNAME, [Quoted(target.qualname)])],
            ClassFields(target.class_)
            + [("class_target", MaybeJson(target.classTarget)), ("kind", KindJson(target.kind)),
               ("method_name", MaybeJson(target.methodName)), ("module", JString(target.pyModule)),
               ("qualname", JString(target.qualname))]);
  }

  lemma DigestSays(form: Form, digest: Digest)
    ensures Says(DigestPieces(form, digest), JString(form.hex(digest)))
  {
    PlainEncodes(_ => false, '"', form.hex(digest));
    SaysMark("\"" + form.hex(digest) + "\"", JString(form.hex(digest)));
  }

  /** The text of a plan is what json.dumps makes of the plan's tree. */
  lemma PlanSays(form: Form, plan: Plan)
    ensures Write(PlanPieces(form, plan)) == Dump(PlanTree(form, plan))
  {
    PlanSaysTree(form, plan);
    hide PlanPieces, PlanTree, Write, Dump;
  }

  lemma PlanSaysTree(form: Form, plan: Plan)
    ensures Says(PlanPieces(form, plan), PlanTree(form, plan))
  {
    hide Says, PlanPieces, PlanTree, Encode, JsonEscape;
    hide BindingsPieces, BindingsJson, DigestPieces, Texts, TextsJson, OutputPieces, OutputJson, ParametersPieces;
    hide ParametersJson, MaybeText, MaybeJson, TargetPieces, TargetJson;
    BindingsSay(form, plan.arguments);
    SaysWord("virtual-direct-v1");
    BindingsSay(form, plan.constructorArguments);
    DigestSays(form, plan.digest);
    TextsSay(plan.inputMetadata);
    OutputSays(form, plan.output);
    TextsSay(plan.outputMetadata);
    ParametersSay(form, plan.parameters);
    SaysQuoted(plan.origin.pythonPath);
    SaysMaybe(plan.origin.ref);
    SaysQuoted(plan.origin.revision);
    TargetSays(form, plan.target);
    PlanFieldsSay(form, plan);
  }

  lemma PlanFieldsSay(form: Form, plan: Plan)
    requires Says(BindingsPieces(form, plan.arguments), BindingsJson(form, plan.arguments))
    requires Says(Word("virtual-direct-v1"), JString("virtual-direct-v1"))
    requires Says(BindingsPieces(form, plan.constructorArguments), BindingsJson(form, plan.constructorArguments))
    requires Says(DigestPieces(form, plan.digest), JString(form.hex(plan.digest)))
    requires Says(Texts(plan.inputMetadata), TextsJson(plan.inputMetadata))
    requires Says(OutputPieces(form, plan.output), OutputJson(form, plan.output))
    requires Says(Texts(plan.outputMetadata), TextsJson(plan.outputMetadata))
    requires Says(ParametersPieces(form, plan.parameters), ParametersJson(form, plan.parameters))
    requires Says([Quoted(plan.origin.pythonPath)], JString(plan.origin.pythonPath))
    requires Says(MaybeText(plan.origin.ref), MaybeJson(plan.origin.ref))
    requires Says([Quoted(plan.origin.revision)], JString(plan.origin.revision))
    requires Says(TargetPieces(plan.target), TargetJson(plan.target))
    ensures Says(PlanPieces(form, plan), PlanTree(form, plan))
  {
    hide Says, SaysField, Field, BindingsPieces, BindingsJson, DigestPieces, Texts, TextsJson, OutputPieces, OutputJson;
    hide ParametersPieces, ParametersJson, MaybeText, MaybeJson, TargetPieces, TargetJson;
    FieldSays("arguments", BindingsPieces(form, plan.arguments), BindingsJson(form, plan.arguments));
    FieldSays("compiler_version", Word("virtual-direct-v1"), JString("virtual-direct-v1"));
    FieldSays("constructor_arguments", BindingsPieces(form, plan.constructorArguments),
              BindingsJson(form, plan.constructorArguments));
    FieldSays("contract_sha256", DigestPieces(form, plan.digest), JString(form.hex(plan.digest)));
    FieldSays("input_metadata", Texts(plan.inputMetadata), TextsJson(plan.inputMetadata));
    FieldSays("output", OutputPieces(form, plan.output), OutputJson(form, plan.output));
    FieldSays("output_metadata", Texts(plan.outputMetadata), TextsJson(plan.outputMetadata));
    FieldSays("parameters", ParametersPieces(form, plan.parameters), ParametersJson(form, plan.parameters));
    FieldSays("python_path", [Quoted(plan.origin.pythonPath)], JString(plan.origin.pythonPath));
    FieldSays("source_ref", MaybeText(plan.origin.ref), MaybeJson(plan.origin.ref));
    FieldSays("source_revision", [Quoted(plan.origin.revision)], JString(plan.origin.revision));
    FieldSays("target", TargetPieces(plan.target), TargetJson(plan.target));
    SaysObj([Field(ARGUMENTS, BindingsPieces(form, plan.arguments))] + RestPieces(form, plan),
            PlanTree(form, plan).fields);
  }
}
