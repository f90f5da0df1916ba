/**
 * Reading a plan back: the fields of its JSON by their names, as the generated adapters do.
 * What the generators write is read back as the very plan.
 */
module PlanReading {
  import opened Prelude
  import opened Names
  import opened Contracts
  import opened Compiler
  import opened PlanText
  import opened LiteralReading
  import opened JsonText
  import opened PlanJson

  /** How numerals and digests are read. */
  datatype Reading = Reading(number: string -> Option<(real, bool)>, digest: string -> Option<Digest>)

  /** Both are read back as what was written. */
  ghost predicate Lawful(form: Form, reading: Reading) {
    && (forall n: real, floating: bool :: reading.number(form.numeral(n, floating)) == Some((n, floating)))
    && (forall digest :: reading.digest(form.hex(digest)) == Some(digest))
  }

  // ---------------------------------------------------------------- members by name

  /** The member of this name; of several, the last. */
  function Member(fields: Fields, name: string): Option<Json>
    decreases |fields|
  {
    if fields == [] then None
    else
      var last := |fields| - 1;
      if fields[last].0 == name then Some(fields[last].1) else Member(fields[..last], name)
  }

  function Get(j: Json, name: string): Option<Json> {
    if j.JObject? then Member(j.fields, name) else None
  }

  predicate Distinct(fields: Fields) {
    forall i, k :: 0 <= i < k < |fields| ==> fields[i].0 != fields[k].0
  }

  lemma {:induction false} MemberAt(fields: Fields, i: nat)
    requires Distinct(fields) && i < |fields|
    ensures Member(fields, fields[i].0) == Some(fields[i].1)
    decreases |fields|
  {
    var last := |fields| - 1;
    if i < last { MemberAt(fields[..last], i); }
  }

  lemma {:induction false} MemberAbsent(fields: Fields, name: string)
    requires forall i :: 0 <= i < |fields| ==> fields[i].0 != name
    ensures Member(fields, name) == None
    decreases |fields|
  {
    if fields != [] { MemberAbsent(fields[..|fields| - 1], name); }
  }

  // ---------------------------------------------------------------- readers

  function TextFrom(j: Option<Json>): Option<string> {
    if j.Some? && j.value.JString? then Some(j.value.text) else None
  }

  function FlagFrom(j: Option<Json>): Option<bool> {
    if j.Some? && j.value.JBool? then Some(j.value.b) else None
  }

  /** None as null. */
  function MaybeFrom(j: Option<Json>): Option<Option<string>> {
    if j.None? then None
    else if j.value.JNull? then Some(None)
    else if j.value.JString? then Some(Some(j.value.text))
    else None
  }

  function ValueFrom(reading: Reading, j: Json): Option<Value>
    decreases j, Width(j) + 1
  {
    match j
    case JNull => Some(Nil)
    case JBool(b) => Some(Bool(b))
    case JNumeral(numeral) =>
      var n := reading.number(numeral);
      if n.None? then None else Some(Number(n.value.0, n.value.1))
    case JString(text) => Some(Text(text))
    case JArray(items) =>
      var elements := ElementsFrom(reading, j, |items|);
      if elements.None? then None else Some(List(elements.value))
    case JObject(fields) =>
      var members := MembersFrom(reading, j, |fields|);
      if members.None? then None else Some(Dict(members.value))
  }

  function ElementsFrom(reading: Reading, j: Json, k: nat): Option<seq<Value>>
    requires j.JArray? && k <= |j.items|
    decreases j, k
  {
    if k == 0 then Some([])
    else
      var (before, v) := (ElementsFrom(reading, j, k - 1), ValueFrom(reading, j.items[k - 1]));
      if before.None? || v.None? then None else Some(before.value + [v.value])
  }

  function MembersFrom(reading: Reading, j: Json, k: nat): Option<map<string, Value>>
    requires j.JObject? && k <= |j.fields|
    decreases j, k
  {
    if k == 0 then Some(map[])
    else
      var (before, v) := (MembersFrom(reading, j, k - 1), ValueFrom(reading, j.fields[k - 1].1));
      if before.None? || v.None? then None else Some(before.value[j.fields[k - 1].0 := v.value])
  }

  function ListFrom<T>(items: seq<Json>, read: Json -> Option<T>): Option<seq<T>> {
    if items == [] then Some([])
    else
      var last := |items| - 1;
      var (before, v) := (ListFrom(items[..last], read), read(items[last]));
      if before.None? || v.None? then None else Some(before.value + [v.value])
  }

  function MapFrom<T>(fields: Fields, read: Json -> Option<T>): Option<map<string, T>> {
    if fields == [] then Some(map[])
    else
      var last := |fields| - 1;
      var (before, v) := (MapFrom(fields[..last], read), read(fields[last].1));
      if before.None? || v.None? then None else Some(before.value[fields[last].0 := v.value])
  }

  function MapOf<T>(j: Option<Json>, read: Json -> Option<T>): Option<map<string, T>> {
    if j.Some? && j.value.JObject? then MapFrom(j.value.fields, read) else None
  }

  function ListOf<T>(j: Option<Json>, read: Json -> Option<T>): Option<seq<T>> {
    if j.Some? && j.value.JArray? then ListFrom(j.value.items, read) else None
  }

  function ValueAt(reading: Reading, j: Option<Json>): Option<Value> {
    if j.None? then None else ValueFrom(reading, j.value)
  }

  function CodecFrom(j: Option<Json>): Option<Codec> {
    var name := TextFrom(j);
    if name == Some("bytes") then Some(BytesCodec)
    else if name == Some("text") then Some(TextCodec)
    else if name == Some("json") then Some(JsonCodec)
    else None
  }

  function SourceFrom(j: Option<Json>): Option<Source> {
    var name := TextFrom(j);
    if name == Some("input.payload") then Some(InputPayload)
    else if name == Some("input.metadata") then Some(InputMetadata)
    else if name == Some("operator.parameter") then Some(OperatorParameter)
    else if name == Some("constant") then Some(Constant)
    else None
  }

  /** A binding; without a default of its own it has none. */
  function BindingFrom(reading: Reading, j: Json): Option<CompiledBinding> {
    var (codec, source) := (CodecFrom(Get(j, "codec")), SourceFrom(Get(j, "source")));
    var (constant, required) := (ValueAt(reading, Get(j, "constant")), FlagFrom(Get(j, "required")));
    var (metadataKey, parameterKey) := (MaybeFrom(Get(j, "metadata_key")), MaybeFrom(Get(j, "parameter_key")));
    var hasDefault := if Get(j, "has_default").None? then Some(false) else FlagFrom(Get(j, "has_default"));
    var default := if Get(j, "default").None? then Some(Nil) else ValueAt(reading, Get(j, "default"));
    if codec.None? || source.None? || constant.None? || required.None? || metadataKey.None? || parameterKey.None?
       || hasDefault.None? || default.None? then None
    else
      Some(CompiledBinding(source.value, codec.value, required.value, metadataKey.value, parameterKey.value,
                           constant.value, hasDefault.value, default.value))
  }

  function PartFrom(reading: Reading, j: Json): Option<Part> {
    match j
    case JString(text) => Some(Key(text))
    case JNumeral(numeral) =>
      var n := reading.number(numeral);
      if n.None? then None else Some(Index(n.value.0.Floor))
    case _ => None
  }

  function PathFrom(reading: Reading, j: Option<Json>): Option<seq<Part>> {
    ListOf(j, (x: Json) => PartFrom(reading, x))
  }

  function OutputSourceFrom(j: Option<Json>): Option<OutputSource> {
    var name := TextFrom(j);
    if name == Some("return") then Some(Return)
    else if name == Some("return.path") then Some(ReturnPath)
    else if name == Some("constant") then Some(OutputConstant)
    else None
  }

  function OutputValueFrom(reading: Reading, j: Json): Option<OutputValue> {
    var (codec, path) := (CodecFrom(Get(j, "codec")), PathFrom(reading, Get(j, "path")));
    var (source, value) := (OutputSourceFrom(Get(j, "source")), ValueAt(reading, Get(j, "value")));
    if codec.None? || path.None? || source.None? || value.None? then None
    else Some(OutputValue(source.value, path.value, codec.value, value.value))
  }

  function PolicyFrom(j: Option<Json>): Option<NonePolicy> {
    var name := TextFrom(j);
    if name == Some("keep-original") then Some(KeepOriginal)
    else if name == Some("empty") then Some(Empty)
    else None
  }

  function OutputFrom(reading: Reading, j: Json): Option<Output> {
    var metadata := MapOf(Get(j, "metadata"), (x: Json) => OutputValueFrom(reading, x));
    var policy := PolicyFrom(Get(j, "none_policy"));
    var payload := if Get(j, "payload").None? then None else OutputValueFrom(reading, Get(j, "payload").value);
    if metadata.None? || policy.None? || payload.None? then None
    else Some(Output(payload.value, metadata.value, policy.value))
  }

  function ParameterFrom(reading: Reading, j: Json): Option<CompiledParameter> {
    var (default, hasDefault) := (ValueAt(reading, Get(j, "default")), FlagFrom(Get(j, "has_default")));
    var (description, displayName) := (TextFrom(Get(j, "description")), TextFrom(Get(j, "display_name")));
    var (key, required) := (TextFrom(Get(j, "key")), FlagFrom(Get(j, "required")));
    if default.None? || hasDefault.None? || description.None? || displayName.None? || key.None? || required.None?
    then None
    else
      Some(CompiledParameter(key.value, displayName.value, description.value, required.value, hasDefault.value,
                             default.value))
  }

  function KindFrom(j: Option<Json>): Option<CallableKind> {
    var name := TextFrom(j);
    if name == Some("function") then Some(Function)
    else if name == Some("instance-method") then Some(InstanceMethod)
    else if name == Some("static-method") then Some(StaticMethod)
    else if name == Some("class-method") then Some(ClassMethod)
    else None
  }

  /** The class is named by its module and its qualified name, both or neither. */
  function TargetFrom(j: Json): Option<Target> {
    var (kind, pyModule, qualname) :=
      (KindFrom(Get(j, "kind")), TextFrom(Get(j, "module")), TextFrom(Get(j, "qualname")));
    var (classTarget, methodName) := (MaybeFrom(Get(j, "class_target")), MaybeFrom(Get(j, "method_name")));
    var (classModule, classQualname) := (TextFrom(Get(j, "class_module")), TextFrom(Get(j, "class_qualname")));
    if kind.None? || pyModule.None? || qualname.None? || classTarget.None? || methodName.None? then None
    else
      var class_ :=
        if classModule.Some? && classQualname.Some? then Some((classModule.value, classQualname.value)) else None;
      Some(Target(kind.value, pyModule.value, qualname.value, classTarget.value, methodName.value, class_))
  }

  function BindingsFrom(reading: Reading, j: Option<Json>): Option<CompiledBindings> {
    MapOf(j, (x: Json) => BindingFrom(reading, x))
  }

  function TextsFrom(j: Option<Json>): Option<seq<string>> {
    ListOf(j, (x: Json) => TextFrom(Some(x)))
  }

  function ParametersFrom(reading: Reading, j: Option<Json>): Option<seq<CompiledParameter>> {
    ListOf(j, (x: Json) => ParameterFrom(reading, x))
  }

  function DigestFrom(reading: Reading, j: Option<Json>): Option<Digest> {
    var text := TextFrom(j);
    if text.None? then None else reading.digest(text.value)
  }

  function OriginFrom(j: Json): Option<Origin> {
    var (revision, pythonPath, ref) :=
      (TextFrom(Get(j, "source_revision")), TextFrom(Get(j, "python_path")), MaybeFrom(Get(j, "source_ref")));
    if revision.None? || pythonPath.None? || ref.None? then None
    else Some(Origin(revision.value, pythonPath.value, ref.value))
  }

  function PlanFrom(reading: Reading, j: Json): Option<Plan> {
    var (arguments, constructorArguments) :=
      (BindingsFrom(reading, Get(j, "arguments")), BindingsFrom(reading, Get(j, "constructor_arguments")));
    var (origin, digest) := (OriginFrom(j), DigestFrom(reading, Get(j, "contract_sha256")));
    var (inputMetadata, outputMetadata) := (TextsFrom(Get(j, "input_metadata")), TextsFrom(Get(j, "output_metadata")));
    var output := if Get(j, "output").None? then None else OutputFrom(reading, Get(j, "output").value);
    var parameters := ParametersFrom(reading, Get(j, "parameters"));
    var target := if Get(j, "target").None? then None else TargetFrom(Get(j, "target").value);
    if arguments.None? || constructorArguments.None? || origin.None? || digest.None? || inputMetadata.None?
       || outputMetadata.None? || output.None? || parameters.None? || target.None? then None
    else
      Some(Plan(origin.value, target.value, constructorArguments.value, arguments.value, output.value, parameters.value,
                inputMetadata.value, outputMetadata.value, digest.value))
  }

  // ---------------------------------------------------------------- values are read back

  lemma {:induction false} ValueReadsBack(form: Form, reading: Reading, v: Value)
    requires Lawful(form, reading) && IsJson(v)
    ensures ValueFrom(reading, ValueJson(form, v)) == Some(v)
    decreases v
  {
    if v.List? {
      forall i | 0 <= i < |v.elements| ensures ReadsBack(form, reading, v.elements[i]) {
        ValueReadsBack(form, reading, v.elements[i]);
      }
      ArrayReadsBack(form, reading, v.elements);
    } else if v.Dict? {
      forall key | key in v.members ensures ReadsBack(form, reading, v.members[key]) {
        ValueReadsBack(form, reading, v.members[key]);
      }
      ObjectReadsBack(form, reading, v.members);
    }
  }

  predicate ReadsBack(form: Form, reading: Reading, v: Value) {
    ValueFrom(reading, ValueJson(form, v)) == Some(v)
  }

  lemma ArrayReadsBack(form: Form, reading: Reading, elements: seq<Value>)
    requires forall i :: 0 <= i < |elements| ==> ReadsBack(form, reading, elements[i])
    ensures ReadsBack(form, reading, List(elements))
  {
    var j := ValueJson(form, List(elements));
    assert |j.items| == |elements| && forall i :: 0 <= i < |elements| ==> j.items[i] == ValueJson(form, elements[i]);
    assert ValueFrom(reading, j) == var read := ElementsFrom(reading, j, |elements|);
      if read.None? then None else Some(List(read.value));
    hide ValueFrom, ValueJson;
    ElementsReadBack(reading, j, elements, |elements|);
    assert elements[..|elements|] == elements;
  }

  lemma ObjectReadsBack(form: Form, reading: Reading, members: map<string, Value>)
    requires forall key :: key in members ==> ReadsBack(form, reading, members[key])
    ensures ReadsBack(form, reading, Dict(members))
  {
    var (j, keys) := (ValueJson(form, Dict(members)), Sorted(members.Keys));
    assert |j.fields| == |keys| && forall i :: 0 <= i < |keys| ==>
      keys[i] in members && j.fields[i] == (keys[i], ValueJson(form, members[keys[i]]));
    assert ValueFrom(reading, j) == var read := MembersFrom(reading, j, |keys|);
      if read.None? then None else Some(Dict(read.value));
    hide ValueFrom, ValueJson;
    MembersReadBack(reading, j, members, keys, |keys|);
  }

  lemma {:induction false} ElementsReadBack(reading: Reading, j: Json, elements: seq<Value>, k: nat)
    requires j.JArray? && |j.items| == |elements| && k <= |elements|
    requires forall i :: 0 <= i < |elements| ==> ValueFrom(reading, j.items[i]) == Some(elements[i])
    ensures ElementsFrom(reading, j, k) == Some(elements[..k])
    decreases k
  {
    hide ValueFrom;
    if k > 0 {
      ElementsReadBack(reading, j, elements, k - 1);
      assert elements[..k] == elements[..k - 1] + [elements[k - 1]];
    }
  }

  /** The members under the first of these keys. */
  function Under<T>(members: map<string, T>, keys: seq<string>): map<string, T> {
    map key | key in members && key in keys :: members[key]
  }

  lemma UnderGrows<T>(members: map<string, T>, keys: seq<string>, k: nat)
    requires 0 < k <= |keys| && keys[k - 1] in members
    ensures Under(members, keys[..k]) == Under(members, keys[..k - 1])[keys[k - 1] := members[keys[k - 1]]]
  {
    assert keys[..k] == keys[..k - 1] + [keys[k - 1]];
  }

  lemma UnderAll<T>(members: map<string, T>, keys: seq<string>)
    requires forall key :: key in keys <==> key in members
    ensures Under(members, keys) == members
  {
  }

  lemma {:induction false} MembersReadBack(reading: Reading, j: Json, members: map<string, Value>, keys: seq<string>,
                                           k: nat)
    requires j.JObject? && |j.fields| == |keys| && k <= |keys|
    requires forall i :: 0 <= i < |keys| ==>
      keys[i] in members && j.fields[i].0 == keys[i] && ValueFrom(reading, j.fields[i].1) == Some(members[keys[i]])
    requires forall key :: key in keys <==> key in members
    ensures MembersFrom(reading, j, k) == Some(Under(members, keys[..k]))
    ensures k == |keys| ==> MembersFrom(reading, j, k) == Some(members)
    decreases k
  {
    hide ValueFrom;
    if k > 0 {
      MembersReadBack(reading, j, members, keys, k - 1);
      UnderGrows(members, keys, k);
    } else {
      assert Under(members, keys[..0]) == map[];
    }
    assert keys[..|keys|] == keys;
    UnderAll(members, keys);
  }

  lemma {:induction false} MapReadsBack<T>(fields: Fields, members: map<string, T>, keys: seq<string>,
                                           read: Json -> Option<T>)
    requires |fields| == |keys| && forall i :: 0 <= i < |keys| ==>
      keys[i] in members && fields[i].0 == keys[i] && read(fields[i].1) == Some(members[keys[i]])
    ensures MapFrom(fields, read) == Some(Under(members, keys))
    decreases |fields|
  {
    if fields == [] {
      assert Under(members, keys) == map[];
    } else {
      var last := |fields| - 1;
      MapReadsBack(fields[..last], members, keys[..last], read);
      assert keys[..last + 1] == keys;
      UnderGrows(members, keys, last + 1);
    }
  }

  lemma TreeReadsBack<T>(members: map<string, T>, tree: T -> Json, read: Json -> Option<T>)
    requires forall key :: key in members ==> read(tree(members[key])) == Some(members[key])
    ensures MapOf(Some(MapJson(members, tree)), read) == Some(members)
  {
    var keys := Sorted(members.Keys);
    MapReadsBack(MapJson(members, tree).fields, members, keys, read);
    UnderAll(members, keys);
  }

  lemma {:induction false} ListReadsBack<T>(items: seq<Json>, elements: seq<T>, read: Json -> Option<T>)
    requires |items| == |elements| && forall i :: 0 <= i < |items| ==> read(items[i]) == Some(elements[i])
    ensures ListFrom(items, read) == Some(elements)
    decreases |items|
  {
    if items != [] {
      var last := |items| - 1;
      ListReadsBack(items[..last], elements[..last], read);
      assert elements == elements[..last] + [elements[last]];
    }
  }

  // ---------------------------------------------------------------- bindings are read back

  /** What a binding says after compiling: JSON values, and a default only for an operator parameter. */
  predicate PlainBinding(b: CompiledBinding) {
    IsJson(b.constant) && IsJson(b.default) && (!b.source.OperatorParameter? ==> !b.hasDefault && b.default == Nil)
  }

  lemma BindingMembers(form: Form, b: CompiledBinding)
    ensures var j := BindingJson(form, b);
      && Get(j, "codec") == Some(CodecJson(b.codec)) && Get(j, "constant") == Some(ValueJson(form, b.constant))
      && Get(j, "metadata_key") == Some(MaybeJson(b.metadataKey))
      && Get(j, "parameter_key") == Some(MaybeJson(b.parameterKey))
      && Get(j, "required") == Some(JBool(b.required)) && Get(j, "source") == Some(SourceJson(b.source))
      && Get(j, "default") == (if b.source.OperatorParameter? then Some(ValueJson(form, b.default)) else None)
      && Get(j, "has_default") == if b.source.OperatorParameter? then Some(JBool(b.hasDefault)) else None
  {
    hide CodecJson, ValueJson, MaybeJson, SourceJson, Member;
    var fields := BindingJson(form, b).fields;
    var n := if b.source.OperatorParameter? then 2 else 0;
    assert |fields| == 6 + n && fields[0].0 == "codec" && fields[1].0 == "constant";
    assert fields[2 + n].0 == "metadata_key" && fields[3 + n].0 == "parameter_key" && fields[4 + n].0 == "required";
    assert fields[5 + n].0 == "source" && (n == 2 ==> fields[2].0 == "default" && fields[3].0 == "has_default");
    assert Distinct(fields);
    MemberAt(fields, 0);
    MemberAt(fields, 1);
    MemberAt(fields, 2 + n);
    MemberAt(fields, 3 + n);
    MemberAt(fields, 4 + n);
    MemberAt(fields, 5 + n);
    if n == 2 {
      MemberAt(fields, 2);
      MemberAt(fields, 3);
    } else {
      MemberAbsent(fields, "default");
      MemberAbsent(fields, "has_default");
    }
  }

  lemma CodecReadsBack(codec: Codec)
    ensures CodecFrom(Some(CodecJson(codec))) == Some(codec)
  {
  }

  lemma SourceReadsBack(source: Source)
    ensures SourceFrom(Some(SourceJson(source))) == Some(source)
  {
    var (a, b, c) := ("input.payload", "input.metadata", "operator.parameter");
    assert |a| == 13 && |b| == 14 && |c| == 18 && |"constant"| == 8;
  }

  lemma MaybeReadsBack(text: Option<string>)
    ensures MaybeFrom(Some(MaybeJson(text))) == Some(text)
  {
  }

  lemma BindingReadsBack(form: Form, reading: Reading, b: CompiledBinding)
    requires Lawful(form, reading) && PlainBinding(b)
    ensures BindingFrom(reading, BindingJson(form, b)) == Some(b)
  {
    hide CodecJson, ValueJson, MaybeJson, SourceJson, Get, BindingJson, Lawful, ValueFrom, CodecFrom, SourceFrom;
    hide MaybeFrom;
    BindingMembers(form, b);
    CodecReadsBack(b.codec);
    SourceReadsBack(b.source);
    MaybeReadsBack(b.metadataKey);
    MaybeReadsBack(b.parameterKey);
    ValueReadsBack(form, reading, b.constant);
    ValueReadsBack(form, reading, b.default);
  }

  lemma BindingsReadBack(form: Form, reading: Reading, bindings: CompiledBindings)
    requires Lawful(form, reading) && forall name :: name in bindings ==> PlainBinding(bindings[name])
    ensures BindingsFrom(reading, Some(BindingsJson(form, bindings))) == Some(bindings)
  {
    hide BindingJson, BindingFrom, Lawful, PlainBinding, MapOf;
    forall name | name in bindings
      ensures BindingFrom(reading, BindingJson(form, bindings[name])) == Some(bindings[name])
    {
      BindingReadsBack(form, reading, bindings[name]);
    }
    TreeReadsBack(bindings, (b: CompiledBinding) => BindingJson(form, b), (x: Json) => BindingFrom(reading, x));
  }

  // ---------------------------------------------------------------- outputs, parameters and the target are read back

  lemma PartReadsBack(form: Form, reading: Reading, part: Part)
    requires Lawful(form, reading)
    ensures PartFrom(reading, PartJson(form, part)) == Some(part)
  {
    if part.Index? { assert (part.index as real).Floor == part.index; }
  }

  lemma PathReadsBack(form: Form, reading: Reading, path: seq<Part>)
    requires Lawful(form, reading)
    ensures PathFrom(reading, Some(PathJson(form, path))) == Some(path)
  {
    hide PartFrom, PartJson, Lawful;
    var items := PathJson(form, path).items;
    forall i | 0 <= i < |items| ensures PartFrom(reading, items[i]) == Some(path[i]) {
      PartReadsBack(form, reading, path[i]);
    }
    ListReadsBack(items, path, (x: Json) => PartFrom(reading, x));
  }

  lemma OutputSourceReadsBack(source: OutputSource)
    ensures OutputSourceFrom(Some(OutputSourceJson(source))) == Some(source)
  {
    assert |"return"| == 6 && |"return.path"| == 11 && |"constant"| == 8;
  }

  lemma OutputValueMembers(form: Form, v: OutputValue)
    ensures var j := OutputValueJson(form, v);
      && Get(j, "codec") == Some(CodecJson(v.codec))
      && Get(j, "path") == Some(PathJson(form, v.path))
      && Get(j, "source") == Some(OutputSourceJson(v.source)) && Get(j, "value") == Some(ValueJson(form, v.value))
  {
    hide CodecJson, ValueJson, OutputSourceJson, PathJson, Member;
    var fields := OutputValueJson(form, v).fields;
    assert |fields| == 4 && fields[0].0 == "codec" && fields[1].0 == "path" && fields[2].0 == "source";
    assert fields[3].0 == "value" && fields[0].0[0] != fields[3].0[0];
    assert Distinct(fields);
    MemberAt(fields, 0);
    MemberAt(fields, 1);
    MemberAt(fields, 2);
    MemberAt(fields, 3);
  }

  lemma OutputValueReadsBack(form: Form, reading: Reading, v: OutputValue)
    requires Lawful(form, reading) && IsJson(v.value)
    ensures OutputValueFrom(reading, OutputValueJson(form, v)) == Some(v)
  {
    hide CodecJson, ValueJson, OutputSourceJson, PathJson, PathFrom, Get, OutputValueJson, Lawful, ValueFrom, CodecFrom;
    hide OutputSourceFrom, IsJson;
    OutputValueMembers(form, v);
    CodecReadsBack(v.codec);
    PathReadsBack(form, reading, v.path);
    OutputSourceReadsBack(v.source);
    ValueReadsBack(form, reading, v.value);
  }

  lemma PolicyReadsBack(policy: NonePolicy)
    ensures PolicyFrom(Some(PolicyJson(policy))) == Some(policy)
  {
    assert |"keep-original"| == 13 && |"empty"| == 5;
  }

  lemma OutputMembers(form: Form, output: Output)
    ensures var j := OutputJson(form, output);
      && Get(j, "metadata") == Some(MapJson(output.metadata, v => OutputValueJson(form, v)))
      && Get(j, "none_policy") == Some(PolicyJson(output.nonePolicy))
      && Get(j, "payload") == Some(OutputValueJson(form, output.payload))
  {
    hide OutputValueJson, PolicyJson, MapJson, Member;
    var fields := OutputJson(form, output).fields;
    assert |fields| == 3 && fields[0].0 == "metadata" && fields[1].0 == "none_policy" && fields[2].0 == "payload";
    assert Distinct(fields);
    MemberAt(fields, 0);
    MemberAt(fields, 1);
    MemberAt(fields, 2);
  }

  lemma OutputReadsBack(form: Form, reading: Reading, output: Output)
    requires Lawful(form, reading) && ValidOutput(output)
    ensures OutputFrom(reading, OutputJson(form, output)) == Some(output)
  {
    hide OutputValueJson, OutputValueFrom, PolicyJson, PolicyFrom, MapJson, MapOf, Get, OutputJson, Lawful, IsJson;
    OutputMembers(form, output);
    forall name | name in output.metadata
      ensures OutputValueFrom(reading, OutputValueJson(form, output.metadata[name])) == Some(output.metadata[name])
    {
      OutputValueReadsBack(form, reading, output.metadata[name]);
    }
    TreeReadsBack(output.metadata, (v: OutputValue) => OutputValueJson(form, v),
                  (x: Json) => OutputValueFrom(reading, x));
    PolicyReadsBack(output.nonePolicy);
    OutputValueReadsBack(form, reading, output.payload);
  }

  lemma ParameterMembers(form: Form, p: CompiledParameter)
    ensures var j := ParameterJson(form, p);
      && Get(j, "default") == Some(ValueJson(form, p.default)) && Get(j, "description") == Some(JString(p.description))
      && Get(j, "display_name") == Some(JString(p.displayName)) && Get(j, "has_default") == Some(JBool(p.hasDefault))
      && Get(j, "key") == Some(JString(p.key)) && Get(j, "required") == Some(JBool(p.required))
  {
    hide ValueJson, Member;
    var fields := ParameterJson(form, p).fields;
    assert |fields| == 6 && fields[0].0 == "default" && fields[1].0 == "description" && fields[2].0 == "display_name";
    assert fields[3].0 == "has_default" && fields[4].0 == "key" && fields[5].0 == "required";
    assert fields[1].0[0] != fields[3].0[0];
    assert Distinct(fields);
    MemberAt(fields, 0);
    MemberAt(fields, 1);
    MemberAt(fields, 2);
    MemberAt(fields, 3);
    MemberAt(fields, 4);
    MemberAt(fields, 5);
  }

  lemma ParameterReadsBack(form: Form, reading: Reading, p: CompiledParameter)
    requires Lawful(form, reading) && IsJson(p.default)
    ensures ParameterFrom(reading, ParameterJson(form, p)) == Some(p)
  {
    hide ValueJson, Get, ParameterJson, Lawful, ValueFrom, IsJson;
    ParameterMembers(form, p);
    ValueReadsBack(form, reading, p.default);
  }

  predicate PlainParameters(parameters: seq<CompiledParameter>) {
    forall i :: 0 <= i < |parameters| ==> IsJson(parameters[i].default)
  }

  lemma ParametersReadBack(form: Form, reading: Reading, parameters: seq<CompiledParameter>)
    requires Lawful(form, reading) && PlainParameters(parameters)
    ensures ParametersFrom(reading, Some(ParametersJson(form, parameters))) == Some(parameters)
  {
    hide ParameterJson, ParameterFrom, Lawful, IsJson;
    var items := ParametersJson(form, parameters).items;
    forall i | 0 <= i < |items| ensures ParameterFrom(reading, items[i]) == Some(parameters[i]) {
      ParameterReadsBack(form, reading, parameters[i]);
    }
    ListReadsBack(items, parameters, (x: Json) => ParameterFrom(reading, x));
  }

  lemma KindReadsBack(kind: CallableKind)
    ensures KindFrom(Some(KindJson(kind))) == Some(kind)
  {
    assert |"function"| == 8 && |"instance-method"| == 15 && |"static-method"| == 13 && |"class-method"| == 12;
  }

  lemma TargetMembers(target: Target)
    ensures var j := TargetJson(target);
      && Get(j, "class_target") == Some(MaybeJson(target.classTarget)) && Get(j, "kind") == Some(KindJson(target.kind))
      && Get(j, "method_name") == Some(MaybeJson(target.methodName))
      && Get(j, "module") == Some(JString(target.pyModule)) && Get(j, "qualname") == Some(JString(target.qualname))
      && Get(j, "class_module")
           == (if target.class_.Some? then Some(JString(target.class_.value.0)) else None)
      && Get(j, "class_qualname")
           == if target.class_.Some? then Some(JString(target.class_.value.1)) else None
  {
    hide MaybeJson, KindJson, Member;
    var fields := TargetJson(target).fields;
    var n := if target.class_.Some? then 2 else 0;
    assert |fields| == 5 + n && fields[n].0 == "class_target" && fields[1 + n].0 == "kind";
    assert fields[2 + n].0 == "method_name" && fields[3 + n].0 == "module" && fields[4 + n].0 == "qualname";
    assert n == 2 ==> fields[0].0 == "class_module" && fields[1].0 == "class_qualname";
    assert "class_target"[6] == 't' && "class_module"[6] == 'm';
    assert Distinct(fields);
    MemberAt(fields, n);
    MemberAt(fields, 1 + n);
    MemberAt(fields, 2 + n);
    MemberAt(fields, 3 + n);
    MemberAt(fields, 4 + n);
    if n == 2 {
      MemberAt(fields, 0);
      MemberAt(fields, 1);
    } else {
      MemberAbsent(fields, "class_module");
      MemberAbsent(fields, "class_qualname");
    }
  }

  lemma TargetReadsBack(target: Target)
    ensures TargetFrom(TargetJson(target)) == Some(target)
  {
    hide MaybeJson, MaybeFrom, KindJson, KindFrom, Get, TargetJson;
    TargetMembers(target);
    MaybeReadsBack(target.classTarget);
    MaybeReadsBack(target.methodName);
    KindReadsBack(target.kind);
  }

  lemma TextsReadBack(texts: seq<string>)
    ensures TextsFrom(Some(TextsJson(texts))) == Some(texts)
  {
    ListReadsBack(TextsJson(texts).items, texts, (x: Json) => TextFrom(Some(x)));
  }

  // ---------------------------------------------------------------- the plan is read back

  /** A plan whose values are JSON, as every compiled plan is. */
  predicate PlainPlan(plan: Plan) {
    && (forall name :: name in plan.arguments ==> PlainBinding(plan.arguments[name]))
    && (forall name :: name in plan.constructorArguments ==> PlainBinding(plan.constructorArguments[name]))
    && ValidOutput(plan.output) && PlainParameters(plan.parameters)
  }

  lemma PlanNames(form: Form, plan: Plan)
    ensures |PlanTree(form, plan).fields| == 12 && Distinct(PlanTree(form, plan).fields)
  {
    hide BindingsJson, TextsJson, OutputJson, ParametersJson, MaybeJson, TargetJson;
    var fields := PlanTree(form, plan).fields;
    assert |fields[0].0| == 9 && |fields[1].0| == 16 && |fields[2].0| == 21 && |fields[3].0| == 15;
    assert |fields[4].0| == 14 && |fields[5].0| == 6 && |fields[6].0| == 15 && |fields[7].0| == 10;
    assert |fields[8].0| == 11 && |fields[9].0| == 10 && |fields[10].0| == 15 && |fields[11].0| == 6;
    assert fields[3].0[0] == 'c' && fields[6].0[0] == 'o' && fields[10].0[0] == 's';
    assert fields[5].0[0] == 'o' && fields[11].0[0] == 't' && fields[7].0[0] == 'p' && fields[9].0[0] == 's';
  }

  lemma PlanMembers(form: Form, plan: Plan)
    ensures var j := PlanTree(form, plan);
      && Get(j, "arguments") == Some(BindingsJson(form, plan.arguments))
      && Get(j, "constructor_arguments") == Some(BindingsJson(form, plan.constructorArguments))
      && Get(j, "contract_sha256") == Some(JString(form.hex(plan.digest)))
      && Get(j, "input_metadata") == Some(TextsJson(plan.inputMetadata))
      && Get(j, "output") == Some(OutputJson(form, plan.output))
      && Get(j, "output_metadata") == Some(TextsJson(plan.outputMetadata))
      && Get(j, "parameters") == Some(ParametersJson(form, plan.parameters))
      && Get(j, "python_path") == Some(JString(plan.origin.pythonPath))
      && Get(j, "source_ref") == Some(MaybeJson(plan.origin.ref))
      && Get(j, "source_revision") == Some(JString(plan.origin.revision))
      && Get(j, "target") == Some(TargetJson(plan.target))
  {
    hide BindingsJson, TextsJson, OutputJson, ParametersJson, MaybeJson, TargetJson, Member, Distinct;
    PlanNames(form, plan);
    var fields := PlanTree(form, plan).fields;
    MemberAt(fields, 0);
    MemberAt(fields, 2);
    MemberAt(fields, 3);
    MemberAt(fields, 4);
    MemberAt(fields, 5);
    MemberAt(fields, 6);
    MemberAt(fields, 7);
    MemberAt(fields, 8);
    MemberAt(fields, 9);
    MemberAt(fields, 10);
    MemberAt(fields, 11);
  }

  lemma TreeReadsBackAsPlan(form: Form, reading: Reading, plan: Plan)
    requires Lawful(form, reading) && PlainPlan(plan)
    ensures PlanFrom(reading, PlanTree(form, plan)) == Some(plan)
  {
    hide PlanTree, Get, BindingsJson, BindingsFrom, TextsJson, TextsFrom, OutputJson, OutputFrom, ParametersJson;
    hide ParametersFrom, MaybeJson, MaybeFrom, TargetJson, TargetFrom, PlainBinding, IsJson;
    PlanMembers(form, plan);
    BindingsReadBack(form, reading, plan.arguments);
    BindingsReadBack(form, reading, plan.constructorArguments);
    TextsReadBack(plan.inputMetadata);
    TextsReadBack(plan.outputMetadata);
    OutputReadsBack(form, reading, plan.output);
    ParametersReadBack(form, reading, plan.parameters);
    MaybeReadsBack(plan.origin.ref);
    TargetReadsBack(plan.target);
  }

  // ---------------------------------------------------------------- from the text of a module to the plan

  /** json.loads of a literal: the whole literal, and one value in it. */
  function TreeFrom(literal: string): Option<Json> {
    var text := ReadLiteral(literal);
    if text.None? || text.value.1 != "" then None
    else
      var read := ReadValue(text.value.0);
      if read.None? || read.value.1 != "" then None else Some(read.value.0)
  }

  lemma TreeReadsBackFromText(form: Form, j: Json)
    ensures TreeFrom(Repr(form, Dump(j))) == Some(j)
  {
    LiteralIsRead(form, Dump(j), "");
    assert Repr(form, Dump(j)) + "" == Repr(form, Dump(j));
    ValueIsRead(j, "");
    assert Dump(j) + "" == Dump(j);
  }

  function PlanOfLiteral(reading: Reading, literal: string): Option<Plan> {
    var j := TreeFrom(literal);
    if j.None? then None else PlanFrom(reading, j.value)
  }

  function ParametersOfLiteral(reading: Reading, literal: string): Option<seq<CompiledParameter>> {
    ParametersFrom(reading, TreeFrom(literal))
  }

  /** What the generators embed for a plan is read back as that plan, and its property list as its parameters. */
  lemma PlanReadsBack(form: Form, reading: Reading, plan: Plan)
    requires Lawful(form, reading) && PlainPlan(plan)
    ensures PlanOfLiteral(reading, PlanLiteral(form, plan)) == Some(plan)
    ensures ParametersOfLiteral(reading, PropertiesLiteral(form, plan.parameters)) == Some(plan.parameters)
  {
    hide PlanTree, PlanFrom, TreeFrom, PlanPieces, Write, Dump, Repr, ParametersPieces, ParametersFrom, ParametersJson;
    hide PlainBinding, IsJson, Lawful;
    PlanSays(form, plan);
    TreeReadsBackFromText(form, PlanTree(form, plan));
    TreeReadsBackAsPlan(form, reading, plan);
    ParametersSay(form, plan.parameters);
    TreeReadsBackFromText(form, ParametersJson(form, plan.parameters));
    ParametersReadBack(form, reading, plan.parameters);
  }

  /** So two plans with one text are one plan. */
  lemma TextDecidesPlan(form: Form, reading: Reading, plan: Plan, plan': Plan)
    requires Lawful(form, reading) && PlainPlan(plan) && PlainPlan(plan')
    ensures PlanLiteral(form, plan) == PlanLiteral(form, plan') <==> plan == plan'
  {
    hide PlanOfLiteral, PlanLiteral, Lawful, PlainPlan;
    PlanReadsBack(form, reading, plan);
    PlanReadsBack(form, reading, plan');
  }
}
