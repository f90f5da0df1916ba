/**
 * The generated modules, read the way Python reads them: whatever compiles and publishes and
 * whose plan is carried, both backends run that plan, and agree.
 */
module ModulesAgree {
  import opened Prelude
  import opened Contracts
  import opened Compiler
  import opened CompilerTheorems
  import opened Adapters
  import opened AdapterTheorems
  import opened ContractMeaning
  import opened PlanText
  import opened PlanJson
  import opened PlanReading
  import opened Rendering
  import opened RenderingTheorems
  import opened ClassNameLeak

  // ---------------------------------------------------------------- compiled plans are plain

  lemma PayloadIsPlain(parameter: Parameter, b: Binding)
    requires ValidBinding(b)
    ensures PlainBinding(Payload(parameter, b))
  {
  }

  lemma PayloadsArePlain(defs: map<string, Parameter>, bindings: Bindings)
    requires ValidBindings(bindings) && Known(defs, bindings)
    ensures forall name :: name in Payloads(defs, bindings) ==> PlainBinding(Payloads(defs, bindings)[name])
  {
    hide Payloads, Payload, PlainBinding;
    PayloadsSpec(defs, bindings, |bindings|);
    forall name | name in Payloads(defs, bindings) ensures PlainBinding(Payloads(defs, bindings)[name]) {
      var i :| 0 <= i < |bindings| && bindings[i].0 == name;
      PayloadsSpec(defs, bindings, i);
      PayloadIsPlain(defs[name], bindings[i].1);
    }
  }

  lemma DemandsArePlain(defs: map<string, Parameter>, bindings: Bindings)
    requires ValidBindings(bindings) && Known(defs, bindings)
    ensures forall p :: p in Demands(defs, bindings) ==> IsJson(p.default)
  {
    forall p | p in Demands(defs, bindings) ensures IsJson(p.default) {
      var i :| 0 <= i < |bindings| && bindings[i].1.source.OperatorParameter?
        && p == Compiled(defs[bindings[i].0], bindings[i].1.parameter.value);
      assert ValidBinding(bindings[i].1);
    }
  }

  lemma ParametersArePlain(c: Contract, catalog: Catalog)
    requires ValidContract(c) && Compile(c, catalog).Ok?
    ensures PlainParameters(Compile(c, catalog).value.parameters)
  {
    hide Selected, ValidBindings, Known, Supported, TargetPayload, Declared, Payloads, AsMap, Demands, Consistent;
    hide IsJson, DigestOf, MetadataKeys, ByName;
    var callable := Selected(c, catalog).value;
    SelectedIsReady(c, catalog);
    DeclaredSpec(c, callable, catalog);
    DemandsArePlain(ConstructorMap(callable, catalog), c.constructorArguments);
    DemandsArePlain(ByName(callable.parameters), c.arguments);
    var table := Declared(c, callable, catalog).value;
    forall i | 0 <= i < |InKeyOrder(table)| ensures IsJson(InKeyOrder(table)[i].default) {
      assert InKeyOrder(table)[i] in table.Values;
    }
  }

  /** Every compiled plan holds JSON values only, and no default where there is no parameter. */
  lemma CompiledIsPlain(c: Contract, catalog: Catalog)
    requires ValidContract(c) && Compile(c, catalog).Ok?
    ensures PlainPlan(Compile(c, catalog).value)
  {
    hide Compile, Selected, Payloads, ByName, PlainBinding, PlainParameters, TargetPayload, ValidBindings, Known;
    hide IsJson;
    PlanParts(c, catalog);
    var callable := Selected(c, catalog).value;
    ReadyParts(c, callable, catalog);
    PayloadsArePlain(ByName(ConstructorDefs(callable, catalog)), c.constructorArguments);
    PayloadsArePlain(ByName(callable.parameters), c.arguments);
    ParametersArePlain(c, catalog);
  }

  // ---------------------------------------------------------------- modules as Python reads them

  /** Python with this reading of numerals: literals by its own rules, JSON by json.loads, fields by their names. */
  function PythonWith(reading: Reading, identifier: string -> bool): Python {
    Python(literal => PlanOfLiteral(reading, literal), literal => ParametersOfLiteral(reading, literal), identifier)
  }

  lemma ReadsCompiled(form: Form, reading: Reading, identifier: string -> bool, plan: Plan)
    requires Lawful(form, reading) && PlainPlan(plan)
    ensures Reads(PythonWith(reading, identifier), form, plan)
  {
    hide PlanOfLiteral, ParametersOfLiteral, PlanLiteral, PropertiesLiteral, PlainPlan, Lawful;
    PlanReadsBack(form, reading, plan);
  }

  /**
   * For every contract that compiles and publishes and whose plan is carried, and for every
   * input: the text of the runner's module and the text of the native one, read by Python and
   * run, give the same content and attributes, or both fail.
   */
  lemma ModulesAgree(w: World, form: Form, reading: Reading, identifier: string -> bool, c: Contract, catalog: Catalog,
                     className: string, description: string, content: Value, metadata: map<string, Value>,
                     property: string -> Option<string>, parameters: map<string, Value>)
    requires ValidContract(c) && Compile(c, catalog).Ok? && "" !in c.output.metadata && Lawful(form, reading)
    requires (content.Bytes? || content.ByteArray?) && SameParameters(Compile(c, catalog).value, property, parameters)
    requires Carried(form, Compile(c, catalog).value, className)
    requires GoodClass(PythonWith(reading, identifier), className)
    ensures var (plan, py) := (Compile(c, catalog).value, PythonWith(reading, identifier));
      var (literal, slots) := (PlanLiteral(form, plan), NativeSlots(form, plan, className, description));
      && Publish(plan).Some?
      && Agree(ServedModule(w, py, literal, Publish(plan).value, content.bytes, Plain(metadata), parameters),
               Read(w, content.bytes, NativeProcessor(w, py, slots, content, metadata, property)))
  {
    hide Compile, ValidContract, ServedModule, Read, Publish, SameParameters, Carried, NativeProcessor, NativeSlots;
    hide PlanLiteral, GoodClass, PythonWith, Lawful, PlainPlan;
    CompiledIsPlain(c, catalog);
    ReadsCompiled(form, reading, identifier, Compile(c, catalog).value);
    BackendsAgree(w, PythonWith(reading, identifier), form, c, catalog, className, description, content, metadata,
                  property, parameters);
  }

  /** The class name leaks with that very reading, not only with some reading. */
  lemma ClassNameLeaksForReal(w: World, form: Form, reading: Reading, identifier: string -> bool, className: string,
                              description: string, content: Value, metadata: map<string, Value>,
                              property: string -> Option<string>, attributes: map<string, Value>,
                              parameters: map<string, Value>)
    requires Lawful(form, reading) && PlainName(className) && GoodClass(PythonWith(reading, identifier), className)
    requires (content.Bytes? || content.ByteArray?) && Echoes(w, CLASS_MARKER) && Echoes(w, className)
    requires w.encode(CLASS_MARKER).Some? && w.encode(className).Some?
    ensures ValidContract(EchoContract()) && Compile(EchoContract(), EchoCatalog()) == Ok(EchoPlan(CLASS_MARKER))
    ensures var (plan, py) := (EchoPlan(CLASS_MARKER), PythonWith(reading, identifier));
      var slots := NativeSlots(form, plan, className, description);
      && Publish(plan).Some?
      && ServedModule(w, py, PlanLiteral(form, plan), Publish(plan).value, content.bytes, attributes, parameters)
           == Ok(Answer(w.encode(CLASS_MARKER).value, map[]))
      && Read(w, content.bytes, NativeProcessor(w, py, slots, content, metadata, property))
           == Ok(Answer(w.encode(className).value, map[]))
  {
    hide Compile, ValidContract, ServedModule, Read, Publish, NativeProcessor, NativeSlots, Echoes, Reads;
    hide PlanLiteral, GoodClass, PythonWith, Lawful;
    EchoIsPlain(CLASS_MARKER);
    EchoIsPlain(className);
    ReadsCompiled(form, reading, identifier, EchoPlan(CLASS_MARKER));
    ReadsCompiled(form, reading, identifier, EchoPlan(className));
    ClassNameLeaks(w, PythonWith(reading, identifier), form, className, description, content, metadata, property,
                   attributes, parameters);
  }

  lemma EchoIsPlain(text: string)
    ensures PlainPlan(EchoPlan(text))
  {
    hide DigestOf;
  }
}
