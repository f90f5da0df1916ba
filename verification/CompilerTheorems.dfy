/** What compilation depends on: the binding maps, and only in one corner their order. */
module CompilerTheorems {
  import opened Prelude
  import opened Names
  import opened Contracts
  import opened Compiler

  // ---------------------------------------------------------------- definitions a binding map makes

  function Demands(defs: map<string, Parameter>, bindings: Bindings): set<CompiledParameter>
    requires ValidBindings(bindings) && Known(defs, bindings)
  {
    set i | 0 <= i < |bindings| && bindings[i].1.source.OperatorParameter? ::
      Compiled(defs[bindings[i].0], bindings[i].1.parameter.value)
  }

  predicate Consistent(definitions: set<CompiledParameter>) {
    forall a, b :: a in definitions && b in definitions && a.key == b.key ==> Same(a, b)
  }

  predicate Keyed(table: ParameterTable) {
    forall key :: key in table ==> table[key].key == key
  }

  function KeysIn(definitions: set<CompiledParameter>): set<string> {
    set a | a in definitions :: a.key
  }

  /** The table holds one definition per key: a demanded one, or what was there. */
  predicate Holds(table': ParameterTable, table: ParameterTable, demands: set<CompiledParameter>) {
    && Keyed(table') && table'.Keys == table.Keys + KeysIn(demands)
    && forall key :: key in table' ==>
         || table'[key] in demands
         || (key !in KeysIn(demands) && key in table && table'[key] == table[key])
  }

  lemma DemandsGrow(defs: map<string, Parameter>, bindings: Bindings)
    requires ValidBindings(bindings) && Known(defs, bindings) && bindings != []
    ensures var (rest, item) := (bindings[..|bindings| - 1], bindings[|bindings| - 1]);
      Demands(defs, bindings) == Demands(defs, rest)
        + if item.1.source.OperatorParameter? then {Compiled(defs[item.0], item.1.parameter.value)} else {}
  {
    var last := |bindings| - 1;
    var rest, item := bindings[..last], bindings[last];
    assert bindings == rest + [item];
    var more := if item.1.source.OperatorParameter? then {Compiled(defs[item.0], item.1.parameter.value)} else {};
    forall p ensures p in Demands(defs, bindings) <==> p in Demands(defs, rest) + more {
      if p in Demands(defs, rest) {
        var i :| 0 <= i < |rest| && rest[i].1.source.OperatorParameter?
          && p == Compiled(defs[rest[i].0], rest[i].1.parameter.value);
        assert bindings[i] == rest[i];
      }
      if p in Demands(defs, bindings) {
        var i :| 0 <= i < |bindings| && bindings[i].1.source.OperatorParameter?
          && p == Compiled(defs[bindings[i].0], bindings[i].1.parameter.value);
        if i < last { assert rest[i] == bindings[i]; }
      }
    }
  }

  lemma SameChains(a: CompiledParameter, b: CompiledParameter, c: CompiledParameter)
    requires Same(a, b) && Same(b, c)
    ensures Same(a, c)
  {
  }

  lemma SameTurns(a: CompiledParameter, b: CompiledParameter)
    requires Same(a, b)
    ensures Same(b, a) && Same(a, a) && Same(b, b)
  {
  }

  /** Asking one definition of the key is asking all of them. */
  lemma OneMore(definitions: set<CompiledParameter>, p: CompiledParameter, r: CompiledParameter)
    requires Consistent(definitions) && r in definitions && r.key == p.key
    ensures Consistent(definitions + {p}) <==> Same(r, p)
  {
    hide Same;
    if Same(r, p) {
      forall a, b | a in definitions + {p} && b in definitions + {p} && a.key == b.key ensures Same(a, b) {
        SameTurns(r, p);
        if a != p && b == p { SameChains(a, r, p); }
        else if a == p && b != p { SameChains(p, r, b); }
      }
    }
  }

  lemma OneNew(definitions: set<CompiledParameter>, p: CompiledParameter)
    requires Consistent(definitions) && forall a :: a in definitions ==> a.key != p.key
    ensures Consistent(definitions + {p})
  {
  }

  lemma ConsistentGrows(table: ParameterTable, table': ParameterTable, demands: set<CompiledParameter>,
                        p: CompiledParameter)
    requires Keyed(table) && Holds(table', table, demands) && Consistent(table.Values + demands)
    ensures Consistent(table.Values + (demands + {p})) <==> (p.key in table' ==> Same(table'[p.key], p))
  {
    hide Same, Consistent;
    assert table.Values + (demands + {p}) == (table.Values + demands) + {p};
    if p.key in table' {
      OneMore(table.Values + demands, p, table'[p.key]);
    } else {
      forall a | a in table.Values + demands ensures a.key != p.key {
        if a in demands { assert a.key in KeysIn(demands); }
      }
      OneNew(table.Values + demands, p);
    }
  }

  /** Declaring succeeds exactly when no two definitions of a key differ in Python's eyes. */
  lemma {:induction false} DeclareAllSpec(defs: map<string, Parameter>, bindings: Bindings, table: ParameterTable)
    requires ValidBindings(bindings) && Known(defs, bindings) && Keyed(table)
    ensures DeclareAll(defs, bindings, table).Ok? <==> Consistent(table.Values + Demands(defs, bindings))
    ensures DeclareAll(defs, bindings, table).Ok? ==>
      Holds(DeclareAll(defs, bindings, table).value, table, Demands(defs, bindings))
    decreases |bindings|
  {
    hide Same, Consistent, Holds, Demands, Keyed;
    if bindings == [] {
      NothingDemanded(defs, table);
    } else {
      var last := |bindings| - 1;
      var rest, item := bindings[..last], bindings[last];
      DeclareAllSpec(defs, rest, table);
      DemandsGrow(defs, bindings);
      var demands := Demands(defs, rest);
      if DeclareAll(defs, rest, table).Err? {
        InconsistentStays(table.Values + demands, table.Values + Demands(defs, bindings));
      } else if item.1.source.OperatorParameter? {
        var p := Compiled(defs[item.0], item.1.parameter.value);
        ConsistentGrows(table, DeclareAll(defs, rest, table).value, demands, p);
        HoldsGrows(DeclareAll(defs, rest, table).value, table, demands, p);
      } else {
        assert Demands(defs, bindings) == demands;
      }
    }
  }

  lemma NothingDemanded(defs: map<string, Parameter>, table: ParameterTable)
    requires Keyed(table)
    ensures Demands(defs, []) == {} && Consistent(table.Values + {}) && Holds(table, table, {})
  {
  }

  lemma InconsistentStays(small: set<CompiledParameter>, big: set<CompiledParameter>)
    requires !Consistent(small) && small <= big
    ensures !Consistent(big)
  {
  }

  lemma HoldsGrows(table': ParameterTable, table: ParameterTable, demands: set<CompiledParameter>, p: CompiledParameter)
    requires Holds(table', table, demands)
    ensures Holds(table'[p.key := p], table, demands + {p})
  {
    assert KeysIn(demands + {p}) == KeysIn(demands) + {p.key};
  }

  // ---------------------------------------------------------------- the order of a binding map

  predicate Shuffled(a: Bindings, b: Bindings) {
    multiset(a) == multiset(b)
  }

  lemma SameItems(a: Bindings, b: Bindings, i: nat) returns (j: nat)
    requires Shuffled(a, b) && i < |a|
    ensures j < |b| && b[j] == a[i]
  {
    assert a[i] in multiset(a);
    assert a[i] in multiset(b);
    j :| 0 <= j < |b| && b[j] == a[i];
  }

  lemma NamesWithin(a: Bindings, b: Bindings)
    requires Shuffled(a, b)
    ensures NamesOf(a) <= NamesOf(b)
  {
    forall name | name in NamesOf(a) ensures name in NamesOf(b) {
      var i :| 0 <= i < |a| && a[i].0 == name;
      var j := SameItems(a, b, i);
    }
  }

  lemma DemandsWithin(defs: map<string, Parameter>, a: Bindings, b: Bindings)
    requires Shuffled(a, b) && ValidBindings(a) && ValidBindings(b) && Known(defs, a) && Known(defs, b)
    ensures Demands(defs, a) <= Demands(defs, b)
  {
    forall p | p in Demands(defs, a) ensures p in Demands(defs, b) {
      var i :| 0 <= i < |a| && a[i].1.source.OperatorParameter? && p == Compiled(defs[a[i].0], a[i].1.parameter.value);
      var j := SameItems(a, b, i);
    }
  }

  lemma {:induction false} PayloadsSpec(defs: map<string, Parameter>, bindings: Bindings, i: nat)
    requires ValidBindings(bindings) && Known(defs, bindings)
    ensures Payloads(defs, bindings).Keys == NamesOf(bindings)
    ensures i < |bindings| ==> Payloads(defs, bindings)[bindings[i].0] == Payload(defs[bindings[i].0], bindings[i].1)
    decreases |bindings|
  {
    if bindings != [] {
      var last := |bindings| - 1;
      assert bindings == bindings[..last] + [bindings[last]];
      PayloadsSpec(defs, bindings[..last], i);
      NamesGrow(bindings);
    }
  }

  lemma NamesGrow(bindings: Bindings)
    requires bindings != []
    ensures NamesOf(bindings) == NamesOf(bindings[..|bindings| - 1]) + {bindings[|bindings| - 1].0}
  {
    var rest := bindings[..|bindings| - 1];
    forall name | name in NamesOf(bindings) ensures name in NamesOf(rest) + {bindings[|rest|].0} {
      var i :| 0 <= i < |bindings| && bindings[i].0 == name;
      if i < |rest| { assert rest[i] == bindings[i]; }
    }
    forall name | name in NamesOf(rest) ensures name in NamesOf(bindings) {
      var i :| 0 <= i < |rest| && rest[i].0 == name;
      assert bindings[i] == rest[i];
    }
  }

  lemma {:induction false} AsMapSpec(bindings: Bindings, i: nat)
    requires ValidBindings(bindings)
    ensures AsMap(bindings).Keys == NamesOf(bindings)
    ensures i < |bindings| ==> AsMap(bindings)[bindings[i].0] == bindings[i].1
    decreases |bindings|
  {
    if bindings != [] {
      var last := |bindings| - 1;
      assert bindings == bindings[..last] + [bindings[last]];
      AsMapSpec(bindings[..last], i);
      NamesGrow(bindings);
    }
  }

  lemma SamePayloads(defs: map<string, Parameter>, a: Bindings, b: Bindings)
    requires Shuffled(a, b) && ValidBindings(a) && ValidBindings(b) && Known(defs, a) && Known(defs, b)
    ensures Payloads(defs, a) == Payloads(defs, b) && AsMap(a) == AsMap(b)
  {
    hide Payloads, Payload, AsMap;
    NamesWithin(a, b);
    NamesWithin(b, a);
    PayloadsSpec(defs, a, |a|);
    PayloadsSpec(defs, b, |b|);
    AsMapSpec(a, |a|);
    AsMapSpec(b, |b|);
    forall name | name in NamesOf(a)
      ensures Payloads(defs, a)[name] == Payloads(defs, b)[name] && AsMap(a)[name] == AsMap(b)[name]
    {
      var i :| 0 <= i < |a| && a[i].0 == name;
      var j := SameItems(a, b, i);
      PayloadsSpec(defs, a, i);
      PayloadsSpec(defs, b, j);
      AsMapSpec(a, i);
      AsMapSpec(b, j);
    }
  }

  // ---------------------------------------------------------------- the shared table

  predicate Ready(c: Contract, callable: Callable, catalog: Catalog) {
    && ValidContract(c) && Supported(callable, catalog)
    && Known(ConstructorMap(callable, catalog), c.constructorArguments)
    && Known(ByName(callable.parameters), c.arguments)
  }

  function ConstructorDemands(c: Contract, callable: Callable, catalog: Catalog): set<CompiledParameter>
    requires Ready(c, callable, catalog)
  {
    Demands(ConstructorMap(callable, catalog), c.constructorArguments)
  }

  function ArgumentDemands(c: Contract, callable: Callable, catalog: Catalog): set<CompiledParameter>
    requires Ready(c, callable, catalog)
  {
    Demands(ByName(callable.parameters), c.arguments)
  }

  /** One definition per key stands for all of them. */
  lemma Representatives(table: ParameterTable, first: set<CompiledParameter>, second: set<CompiledParameter>)
    requires Holds(table, map[], first) && Consistent(first)
    ensures Consistent(table.Values + second) <==> Consistent(first + second)
  {
    hide Same;
    assert table.Values <= first;
    if Consistent(table.Values + second) {
      forall a, b | a in first + second && b in first + second && a.key == b.key ensures Same(a, b) {
        if a in first && b !in first {
          AcrossTable(table, first, second, a, b);
        } else if a !in first && b in first {
          AcrossTable(table, first, second, b, a);
          SameTurns(b, a);
        }
      }
    } else {
      InconsistentStays(table.Values + second, first + second);
    }
  }

  lemma AcrossTable(table: ParameterTable, first: set<CompiledParameter>, second: set<CompiledParameter>,
                    a: CompiledParameter, b: CompiledParameter)
    requires Holds(table, map[], first) && Consistent(first) && Consistent(table.Values + second)
    requires a in first && b in second && a.key == b.key
    ensures Same(a, b)
  {
    hide Same;
    assert a.key in KeysIn(first);
    var r := table[a.key];
    assert r in table.Values && Same(a, r) && Same(r, b);
    SameChains(a, r, b);
  }

  /** The table compiles exactly when all definitions agree, and arguments overrule constructor arguments. */
  lemma DeclaredSpec(c: Contract, callable: Callable, catalog: Catalog)
    requires Ready(c, callable, catalog)
    ensures var (first, second) := (ConstructorDemands(c, callable, catalog), ArgumentDemands(c, callable, catalog));
      var declared := Declared(c, callable, catalog);
      && (declared.Ok? <==> Consistent(first + second))
      && (declared.Ok? ==> Overrules(declared.value, first, second))
  {
    hide DeclareAll, Demands, Consistent, Keyed;
    var (first, second) := (ConstructorDemands(c, callable, catalog), ArgumentDemands(c, callable, catalog));
    EmptyIsKeyed();
    DeclareAllSpec(ConstructorMap(callable, catalog), c.constructorArguments, map[]);
    var table := DeclareAll(ConstructorMap(callable, catalog), c.constructorArguments, map[]);
    var empty: ParameterTable := map[];
    assert empty.Values + first == first;
    if table.Ok? {
      DeclareAllSpec(ByName(callable.parameters), c.arguments, table.value);
      Representatives(table.value, first, second);
    } else {
      InconsistentStays(first, first + second);
    }
  }

  lemma EmptyIsKeyed()
    ensures Keyed(map[])
  {
  }

  predicate Overrules(table: ParameterTable, first: set<CompiledParameter>, second: set<CompiledParameter>) {
    && table.Keys == KeysIn(first) + KeysIn(second) && Keyed(table)
    && forall key :: key in table ==> table[key] in second || (key !in KeysIn(second) && table[key] in first)
  }

  // ---------------------------------------------------------------- order of the contract's maps

  predicate Reordered(c: Contract, c': Contract) {
    && c' == c.(constructorArguments := c'.constructorArguments, arguments := c'.arguments)
    && Shuffled(c.constructorArguments, c'.constructorArguments) && Shuffled(c.arguments, c'.arguments)
  }

  lemma SameSelection(c: Contract, c': Contract, catalog: Catalog)
    requires Reordered(c, c')
    ensures Selected(c', catalog) == Selected(c, catalog)
  {
    NamesWithin(c.constructorArguments, c'.constructorArguments);
    NamesWithin(c'.constructorArguments, c.constructorArguments);
    NamesWithin(c.arguments, c'.arguments);
    NamesWithin(c'.arguments, c.arguments);
  }

  lemma SelectedIsReady(c: Contract, catalog: Catalog)
    requires ValidContract(c) && Selected(c, catalog).Ok?
    ensures Ready(c, Selected(c, catalog).value, catalog)
  {
    hide Selected, Validate;
    var callable := Selected(c, catalog).value;
    ValidatedIsKnown(ConstructorDefs(callable, catalog), c.constructorArguments);
    ValidatedIsKnown(callable.parameters, c.arguments);
  }

  lemma SameDemands(c: Contract, c': Contract, callable: Callable, catalog: Catalog)
    requires Reordered(c, c') && Ready(c, callable, catalog) && Ready(c', callable, catalog)
    ensures ConstructorDemands(c', callable, catalog) == ConstructorDemands(c, callable, catalog)
    ensures ArgumentDemands(c', callable, catalog) == ArgumentDemands(c, callable, catalog)
  {
    hide Demands, Supported, ValidBindings, Known;
    DemandsWithin(ConstructorMap(callable, catalog), c.constructorArguments, c'.constructorArguments);
    DemandsWithin(ConstructorMap(callable, catalog), c'.constructorArguments, c.constructorArguments);
    DemandsWithin(ByName(callable.parameters), c.arguments, c'.arguments);
    DemandsWithin(ByName(callable.parameters), c'.arguments, c.arguments);
  }

  /** Two tables of the same definitions have the same keys and, to Python, the same entries. */
  lemma TablesAlike(table: ParameterTable, table': ParameterTable, first: set<CompiledParameter>,
                    second: set<CompiledParameter>)
    requires Overrules(table, first, second) && Overrules(table', first, second) && Consistent(first + second)
    ensures table'.Keys == table.Keys && forall key :: key in table ==> Same(table[key], table'[key])
  {
    hide Same;
    forall key | key in table ensures Same(table[key], table'[key]) {
      assert table[key] in first + second && table'[key] in first + second;
    }
  }

  /** What the plan says apart from the parameter list, which only describes defaults. */
  predicate AlikePlans(plan: Plan, plan': Plan) {
    && plan'.(parameters := plan.parameters) == plan && |plan'.parameters| == |plan.parameters|
    && forall i :: 0 <= i < |plan.parameters| ==> Same(plan.parameters[i], plan'.parameters[i])
  }

  /**
   * Reordering the binding maps never turns success into failure or back, and the plan
   * stays the same but for defaults that Python cannot tell apart.
   */
  lemma ReorderedCompiles(c: Contract, c': Contract, catalog: Catalog)
    requires ValidContract(c) && ValidContract(c') && Reordered(c, c')
    ensures Compile(c', catalog).Ok? <==> Compile(c, catalog).Ok?
    ensures Compile(c, catalog).Ok? ==> AlikePlans(Compile(c, catalog).value, Compile(c', catalog).value)
  {
    hide Selected, Same, Demands, Consistent, Overrules, ValidBindings, Known, Supported, TargetPayload, Declared;
    hide Payloads, AsMap, Reordered;
    SameSelection(c, c', catalog);
    if Selected(c, catalog).Ok? {
      var callable := Selected(c, catalog).value;
      SelectedIsReady(c, catalog);
      SelectedIsReady(c', catalog);
      SameDemands(c, c', callable, catalog);
      DeclaredSpec(c, callable, catalog);
      DeclaredSpec(c', callable, catalog);
      SameRest(c, c', callable, catalog);
      if Declared(c, callable, catalog).Ok? {
        TablesAlike(Declared(c, callable, catalog).value, Declared(c', callable, catalog).value,
                    ConstructorDemands(c, callable, catalog), ArgumentDemands(c, callable, catalog));
      }
    }
  }

  lemma SameRest(c: Contract, c': Contract, callable: Callable, catalog: Catalog)
    requires Reordered(c, c') && Ready(c, callable, catalog) && Ready(c', callable, catalog)
    ensures c'.origin == c.origin && c'.output == c.output && DigestOf(c') == DigestOf(c)
    ensures Payloads(ConstructorMap(callable, catalog), c'.constructorArguments)
      == Payloads(ConstructorMap(callable, catalog), c.constructorArguments)
    ensures Payloads(ByName(callable.parameters), c'.arguments) == Payloads(ByName(callable.parameters), c.arguments)
  {
    hide ValidBindings, Known, Supported, Payloads, AsMap, Shuffled, ByName;
    SamePayloads(ConstructorMap(callable, catalog), c.constructorArguments, c'.constructorArguments);
    SamePayloads(ByName(callable.parameters), c.arguments, c'.arguments);
  }

  // ---------------------------------------------------------------- when order shows

  predicate Defines(bindings: Bindings, i: nat, key: string) {
    i < |bindings| && bindings[i].1.source.OperatorParameter? && bindings[i].1.parameter.Some?
      && bindings[i].1.parameter.value.key == key
  }

  predicate Defined(bindings: Bindings, key: string) {
    exists i :: 0 <= i < |bindings| && Defines(bindings, i, key)
  }

  /** Two definitions of one key have literally the same default. */
  predicate SameDefaults(bindings: Bindings, key: string) {
    forall i, j ::
      0 <= i < |bindings| && 0 <= j < |bindings| && Defines(bindings, i, key) && Defines(bindings, j, key) ==>
      bindings[i].1.parameter.value.default == bindings[j].1.parameter.value.default
  }

  /** No key is left to the last of several definitions with different defaults. */
  ghost predicate Settled(c: Contract) {
    && (forall key :: SameDefaults(c.arguments, key))
    && (forall key :: Defined(c.arguments, key) || SameDefaults(c.constructorArguments, key))
  }

  lemma DemandIsDefined(defs: map<string, Parameter>, bindings: Bindings, key: string)
    requires ValidBindings(bindings) && Known(defs, bindings)
    ensures key in KeysIn(Demands(defs, bindings)) <==> Defined(bindings, key)
  {
    if Defined(bindings, key) {
      var i :| 0 <= i < |bindings| && Defines(bindings, i, key);
      assert Compiled(defs[bindings[i].0], bindings[i].1.parameter.value) in Demands(defs, bindings);
    }
    if key in KeysIn(Demands(defs, bindings)) {
      var p :| p in Demands(defs, bindings) && p.key == key;
      var i :| 0 <= i < |bindings| && bindings[i].1.source.OperatorParameter?
        && p == Compiled(defs[bindings[i].0], bindings[i].1.parameter.value);
      assert Defines(bindings, i, key);
    }
  }

  lemma SettledDemand(defs: map<string, Parameter>, bindings: Bindings, a: CompiledParameter, b: CompiledParameter)
    requires ValidBindings(bindings) && Known(defs, bindings)
    requires a in Demands(defs, bindings) && b in Demands(defs, bindings) && Same(a, b) && SameDefaults(bindings, a.key)
    ensures a == b
  {
    var i :| 0 <= i < |bindings| && bindings[i].1.source.OperatorParameter?
      && a == Compiled(defs[bindings[i].0], bindings[i].1.parameter.value);
    var j :| 0 <= j < |bindings| && bindings[j].1.source.OperatorParameter?
      && b == Compiled(defs[bindings[j].0], bindings[j].1.parameter.value);
    assert Defines(bindings, i, a.key) && Defines(bindings, j, a.key);
  }

  lemma SettledTables(c: Contract, callable: Callable, catalog: Catalog, table: ParameterTable, table': ParameterTable)
    requires Ready(c, callable, catalog) && Settled(c)
    requires var (first, second) := (ConstructorDemands(c, callable, catalog), ArgumentDemands(c, callable, catalog));
      Consistent(first + second) && Overrules(table, first, second) && Overrules(table', first, second)
    ensures table' == table
  {
    hide Demands, SameDefaults, Defined, Same, ValidBindings, Known, Supported, ByName;
    var (first, second) := (ConstructorDemands(c, callable, catalog), ArgumentDemands(c, callable, catalog));
    TablesAlike(table, table', first, second);
    forall key | key in table ensures table'[key] == table[key] {
      DemandIsDefined(ByName(callable.parameters), c.arguments, key);
      if key in KeysIn(second) {
        assert table[key] in second && table'[key] in second by {
          assert table[key].key == key && table'[key].key == key;
        }
        SettledDemand(ByName(callable.parameters), c.arguments, table[key], table'[key]);
      } else {
        NotIn(second, key);
        SettledDemand(ConstructorMap(callable, catalog), c.constructorArguments, table[key], table'[key]);
      }
    }
  }

  lemma NotIn(definitions: set<CompiledParameter>, key: string)
    requires key !in KeysIn(definitions)
    ensures forall p :: p in definitions ==> p.key != key
  {
  }

  lemma SettledReorders(c: Contract, c': Contract, catalog: Catalog)
    requires ValidContract(c) && ValidContract(c') && Reordered(c, c') && Settled(c) && Compile(c, catalog).Ok?
    ensures Compile(c', catalog) == Compile(c, catalog)
  {
    hide Selected, Same, Demands, Consistent, Overrules, ValidBindings, Known, Supported, TargetPayload, Declared;
    hide Payloads, AsMap, Reordered, Settled;
    SameSelection(c, c', catalog);
    var callable := Selected(c, catalog).value;
    SelectedIsReady(c, catalog);
    SelectedIsReady(c', catalog);
    SameDemands(c, c', callable, catalog);
    DeclaredSpec(c, callable, catalog);
    DeclaredSpec(c', callable, catalog);
    SameRest(c, c', callable, catalog);
    SettledTables(c, callable, catalog, Declared(c, callable, catalog).value, Declared(c', callable, catalog).value);
  }

  // ---------------------------------------------------------------- moving a binding to the end

  function Last(bindings: Bindings, i: nat): Bindings
    requires i < |bindings|
  {
    bindings[..i] + bindings[i + 1..] + [bindings[i]]
  }

  lemma LastShuffles(bindings: Bindings, i: nat)
    requires i < |bindings| && ValidBindings(bindings)
    ensures Shuffled(bindings, Last(bindings, i)) && ValidBindings(Last(bindings, i))
  {
    assert bindings == bindings[..i] + [bindings[i]] + bindings[i + 1..];
    var moved := Last(bindings, i);
    forall a, b | 0 <= a < b < |moved| ensures moved[a].0 != moved[b].0 {
      var a' := if a < i then a else a + 1;
      var b' := if b == |moved| - 1 then i else if b < i then b else b + 1;
      assert moved[a] == bindings[a'] && moved[b] == bindings[b'];
    }
    forall a | 0 <= a < |moved| ensures ValidBinding(moved[a].1) {
      assert moved[a] == bindings[if a == |moved| - 1 then i else if a < i then a else a + 1];
    }
  }

  /** The last definition of a key is the one in the table. */
  lemma LastWins(defs: map<string, Parameter>, bindings: Bindings, i: nat, key: string, table: ParameterTable)
    requires ValidBindings(bindings) && Known(defs, bindings) && i < |bindings| && Defines(bindings, i, key)
    requires ValidBindings(Last(bindings, i)) && Known(defs, Last(bindings, i))
    requires DeclareAll(defs, Last(bindings, i), table).Ok?
    ensures key in DeclareAll(defs, Last(bindings, i), table).value
    ensures DeclareAll(defs, Last(bindings, i), table).value[key].default == bindings[i].1.parameter.value.default
  {
    var moved := Last(bindings, i);
    assert moved[|moved| - 1] == bindings[i];
  }

  lemma TableShows(table: ParameterTable, table': ParameterTable, key: string)
    requires table'.Keys == table.Keys && key in table && table[key] != table'[key]
    ensures InKeyOrder(table) != InKeyOrder(table')
  {
    var keys := Sorted(table.Keys);
    var i :| 0 <= i < |keys| && keys[i] == key;
    assert InKeyOrder(table)[i] == table[key] && InKeyOrder(table')[i] == table'[key];
  }

  function TableOf(c: Contract, catalog: Catalog): ParameterTable
    requires ValidContract(c) && Compile(c, catalog).Ok?
  {
    SelectedIsReady(c, catalog);
    Declared(c, Selected(c, catalog).value, catalog).value
  }

  lemma TableShowsInPlan(c: Contract, c': Contract, catalog: Catalog, key: string)
    requires ValidContract(c) && ValidContract(c') && Compile(c, catalog).Ok? && Compile(c', catalog).Ok?
    requires TableOf(c', catalog).Keys == TableOf(c, catalog).Keys && key in TableOf(c, catalog)
    requires TableOf(c', catalog)[key] != TableOf(c, catalog)[key]
    ensures Compile(c', catalog) != Compile(c, catalog)
  {
    hide Selected, ValidBindings, Known, Supported, TargetPayload, Declared, Payloads, AsMap;
    TableShows(TableOf(c, catalog), TableOf(c', catalog), key);
  }

  lemma SameTableKeys(c: Contract, c': Contract, catalog: Catalog)
    requires ValidContract(c) && ValidContract(c') && Compile(c, catalog).Ok? && Reordered(c, c')
    ensures Compile(c', catalog).Ok? && Selected(c', catalog) == Selected(c, catalog)
    ensures TableOf(c', catalog).Keys == TableOf(c, catalog).Keys
  {
    hide Selected, Same, Demands, Consistent, Overrules, ValidBindings, Known, Supported, TargetPayload, Declared;
    hide Payloads, AsMap, Reordered;
    ReorderedCompiles(c, c', catalog);
    SameSelection(c, c', catalog);
    var callable := Selected(c, catalog).value;
    SelectedIsReady(c, catalog);
    SelectedIsReady(c', catalog);
    SameDemands(c, c', callable, catalog);
    DeclaredSpec(c, callable, catalog);
    DeclaredSpec(c', callable, catalog);
    TablesAlike(Declared(c, callable, catalog).value, Declared(c', callable, catalog).value,
                ConstructorDemands(c, callable, catalog), ArgumentDemands(c, callable, catalog));
  }

  /** An argument's definition moved to the end decides the default. */
  lemma ArgumentDecides(c: Contract, catalog: Catalog, i: nat, key: string)
    requires ValidContract(c) && Compile(c, catalog).Ok? && Defines(c.arguments, i, key)
    requires ValidContract(c.(arguments := Last(c.arguments, i)))
    ensures var c' := c.(arguments := Last(c.arguments, i));
      && Reordered(c, c') && Compile(c', catalog).Ok? && TableOf(c', catalog).Keys == TableOf(c, catalog).Keys
      && key in TableOf(c, catalog)
      && TableOf(c', catalog)[key].default == c.arguments[i].1.parameter.value.default
  {
    hide Selected, Same, ValidBindings, Known, Supported, TargetPayload, Payloads, AsMap, DeclareAll, ByName;
    hide InKeyOrder, Last;
    var c' := c.(arguments := Last(c.arguments, i));
    LastShuffles(c.arguments, i);
    SameTableKeys(c, c', catalog);
    var callable := Selected(c, catalog).value;
    SelectedIsReady(c, catalog);
    SelectedIsReady(c', catalog);
    var first := DeclareAll(ConstructorMap(callable, catalog), c.constructorArguments, map[]).value;
    LastWins(ByName(callable.parameters), c.arguments, i, key, first);
  }

  /** So does a constructor argument's, for a key no argument defines. */
  lemma ConstructorDecides(c: Contract, catalog: Catalog, i: nat, key: string)
    requires ValidContract(c) && Compile(c, catalog).Ok? && Defines(c.constructorArguments, i, key)
    requires !Defined(c.arguments, key)
    requires ValidContract(c.(constructorArguments := Last(c.constructorArguments, i)))
    ensures var c' := c.(constructorArguments := Last(c.constructorArguments, i));
      && Reordered(c, c') && Compile(c', catalog).Ok? && TableOf(c', catalog).Keys == TableOf(c, catalog).Keys
      && key in TableOf(c, catalog)
      && TableOf(c', catalog)[key].default == c.constructorArguments[i].1.parameter.value.default
  {
    hide Selected, Same, ValidBindings, Known, Supported, TargetPayload, Payloads, AsMap, DeclareAll, ByName;
    hide InKeyOrder, Last, Defined, Demands, Consistent;
    var c' := c.(constructorArguments := Last(c.constructorArguments, i));
    LastShuffles(c.constructorArguments, i);
    SameTableKeys(c, c', catalog);
    var callable := Selected(c, catalog).value;
    SelectedIsReady(c, catalog);
    SelectedIsReady(c', catalog);
    var defs := ConstructorMap(callable, catalog);
    EmptyIsKeyed();
    DeclareAllSpec(defs, c'.constructorArguments, map[]);
    LastWins(defs, c.constructorArguments, i, key, map[]);
    var first := DeclareAll(defs, c'.constructorArguments, map[]).value;
    DeclareAllSpec(ByName(callable.parameters), c.arguments, first);
    DemandIsDefined(ByName(callable.parameters), c.arguments, key);
    NotIn(Demands(ByName(callable.parameters), c.arguments), key);
  }

  /** An unsettled contract has an order of its bindings that gives another plan. */
  lemma UnsettledShows(c: Contract, catalog: Catalog) returns (c': Contract)
    requires ValidContract(c) && Compile(c, catalog).Ok? && !Settled(c)
    ensures ValidContract(c') && Reordered(c, c') && Compile(c', catalog).Ok?
    ensures Compile(c', catalog) != Compile(c, catalog)
  {
    hide Compile, Reordered, Last, ValidBindings, TableOf;
    if key :| !SameDefaults(c.arguments, key) {
      var i, j :| 0 <= i < |c.arguments| && 0 <= j < |c.arguments| && Defines(c.arguments, i, key)
        && Defines(c.arguments, j, key)
        && c.arguments[i].1.parameter.value.default != c.arguments[j].1.parameter.value.default;
      LastShuffles(c.arguments, i);
      LastShuffles(c.arguments, j);
      ArgumentDecides(c, catalog, i, key);
      ArgumentDecides(c, catalog, j, key);
      var pick := if TableOf(c, catalog)[key].default != c.arguments[i].1.parameter.value.default then i else j;
      c' := c.(arguments := Last(c.arguments, pick));
      TableShowsInPlan(c, c', catalog, key);
    } else {
      var key :| !Defined(c.arguments, key) && !SameDefaults(c.constructorArguments, key);
      var items := c.constructorArguments;
      var i, j :| 0 <= i < |items| && 0 <= j < |items| && Defines(items, i, key) && Defines(items, j, key)
        && items[i].1.parameter.value.default != items[j].1.parameter.value.default;
      LastShuffles(items, i);
      LastShuffles(items, j);
      ConstructorDecides(c, catalog, i, key);
      ConstructorDecides(c, catalog, j, key);
      var pick := if TableOf(c, catalog)[key].default != items[i].1.parameter.value.default then i else j;
      c' := c.(constructorArguments := Last(items, pick));
      TableShowsInPlan(c, c', catalog, key);
    }
  }

  /**
   * The plan of a contract that compiles is independent of the order of its binding maps
   * exactly when no key is defined twice, in the map that decides it, with different defaults.
   */
  lemma OrderFreeIff(c: Contract, catalog: Catalog)
    requires ValidContract(c) && Compile(c, catalog).Ok?
    ensures (forall c' :: ValidContract(c') && Reordered(c, c') ==> Compile(c', catalog) == Compile(c, catalog))
      <==> Settled(c)
  {
    hide Compile, Reordered, ValidContract, Settled;
    if Settled(c) {
      forall c' | ValidContract(c') && Reordered(c, c') ensures Compile(c', catalog) == Compile(c, catalog) {
        SettledReorders(c, c', catalog);
      }
    } else {
      var c' := UnsettledShows(c, catalog);
    }
  }

  // ---------------------------------------------------------------- an order that shows

  function Twin(default: Value): Binding {
    Binding(OperatorParameter, TextCodec, None, Some(ParameterSpec("k", "", "", false, true, default)), Nil)
  }

  function Twins(a: Value, b: Value): Contract {
    Contract("op", "op", "", Origin("r", ".", None), "m:f", [], [("x", Twin(a)), ("y", Twin(b))],
             Output(OutputValue(Return, [], BytesCodec, Nil), map[], KeepOriginal))
  }

  function TwinParameters(): seq<Parameter> {
    [Parameter("x", KeywordOnly, true), Parameter("y", KeywordOnly, true)]
  }

  function TwinCallable(): Callable {
    Callable("m:f", "m", "f", Function, None, None, false, 0, TwinParameters())
  }

  function TwinCatalog(): Catalog {
    Catalog("r", ".", [TwinCallable()], [], false)
  }

  lemma TwinsSelected(a: Value, b: Value)
    requires IsJson(a) && IsJson(b)
    ensures ValidContract(Twins(a, b)) && Selected(Twins(a, b), TwinCatalog()) == Ok(TwinCallable())
  {
    var c := Twins(a, b);
    assert NamesOf(c.constructorArguments) == {};
    assert c.arguments[0].0 == "x" && c.arguments[1].0 == "y";
    assert "x" in NamesOf(c.arguments) && "y" in NamesOf(c.arguments);
    assert TwinCatalog().functions + AllMethods([]) == [TwinCallable()];
    var parameters := TwinParameters();
    assert parameters[0].name == "x" && parameters[1].name == "y";
    assert "x" in Named(parameters) && "y" in Named(parameters);
    assert Best([TwinCallable()], "m:f") == Some(TwinCallable());
  }

  /** Any two defaults that Python finds equal and JSON does not: the plan depends on which comes last. */
  lemma OrderShows(a: Value, b: Value)
    requires IsJson(a) && IsJson(b) && PyEqual(a, b) && a != b
    ensures var c := Twins(a, b);
      && ValidContract(c) && Compile(c, TwinCatalog()).Ok? && !Settled(c)
      && exists c' :: ValidContract(c') && Reordered(c, c') && Compile(c', TwinCatalog()) != Compile(c, TwinCatalog())
  {
    hide Compile, PyEqual;
    var c := Twins(a, b);
    TwinsCompile(a, b);
    assert Defines(c.arguments, 0, "k") && Defines(c.arguments, 1, "k");
    assert !SameDefaults(c.arguments, "k");
    var c' := UnsettledShows(c, TwinCatalog());
  }

  /** The plan lists the default of the binding that comes last. */
  lemma LastTwinDecides(a: Value, b: Value)
    requires IsJson(a) && IsJson(b) && PyEqual(a, b)
    ensures var (c, c') := (Twins(a, b), Swapped(Twins(a, b)));
      && ValidContract(c) && ValidContract(c') && Reordered(c, c')
      && Compile(c, TwinCatalog()).Ok? && Compile(c', TwinCatalog()).Ok?
      && "k" in TableOf(c, TwinCatalog()) && TableOf(c, TwinCatalog())["k"].default == b
      && "k" in TableOf(c', TwinCatalog()) && TableOf(c', TwinCatalog())["k"].default == a
      && TableOf(c', TwinCatalog()).Keys == TableOf(c, TwinCatalog()).Keys
  {
    hide Compile, PyEqual, Reordered, TableOf, ValidBindings, Shuffled;
    var c := Twins(a, b);
    TwinsCompile(a, b);
    LastShuffles(c.arguments, 0);
    LastShuffles(c.arguments, 1);
    assert Last(c.arguments, 0) == Swapped(c).arguments && Last(c.arguments, 1) == c.arguments;
    ArgumentDecides(c, TwinCatalog(), 0, "k");
    ArgumentDecides(c, TwinCatalog(), 1, "k");
    assert c.(arguments := Last(c.arguments, 1)) == c;
  }

  /** The same two bindings, the other way round. */
  function Swapped(c: Contract): Contract
    requires |c.arguments| == 2
  {
    c.(arguments := [c.arguments[1], c.arguments[0]])
  }

  /** Defaults 1 and True for one parameter: both orders compile, and the plans differ. */
  lemma OneIsTrue()
    ensures var c := Twins(Number(1.0, false), Bool(true));
      && ValidContract(c) && ValidContract(Swapped(c)) && Reordered(c, Swapped(c))
      && Compile(c, TwinCatalog()).Ok? && Compile(Swapped(c), TwinCatalog()).Ok?
      && Compile(Swapped(c), TwinCatalog()) != Compile(c, TwinCatalog())
  {
    hide Compile, Reordered, TableOf;
    var c := Twins(Number(1.0, false), Bool(true));
    LastTwinDecides(Number(1.0, false), Bool(true));
    TableShowsInPlan(c, Swapped(c), TwinCatalog(), "k");
  }

  lemma TwinsCompile(a: Value, b: Value)
    requires IsJson(a) && IsJson(b) && PyEqual(a, b)
    ensures ValidContract(Twins(a, b)) && Compile(Twins(a, b), TwinCatalog()).Ok?
  {
    hide Selected, Payloads, AsMap, InKeyOrder, PyEqual;
    var (c, catalog, callable) := (Twins(a, b), TwinCatalog(), TwinCallable());
    TwinsSelected(a, b);
    SelectedIsReady(c, catalog);
    DeclaredSpec(c, callable, catalog);
    assert PyEqual(a, a) && PyEqual(b, b) && PyEqual(b, a) by { TwinsEqual(a, b); }
  }

  lemma TwinsEqual(a: Value, b: Value)
    requires PyEqual(a, b)
    ensures PyEqual(a, a) && PyEqual(b, b) && PyEqual(b, a)
  {
  }

  // ---------------------------------------------------------------- what the digest sees

  lemma {:induction false} AsMapHas(bindings: Bindings, item: (string, Binding))
    requires ValidBindings(bindings)
    ensures item in bindings <==> item.0 in AsMap(bindings) && AsMap(bindings)[item.0] == item.1
  {
    hide AsMap;
    AsMapSpec(bindings, |bindings|);
    if item in bindings {
      var i :| 0 <= i < |bindings| && bindings[i] == item;
      AsMapSpec(bindings, i);
    }
    if item.0 in AsMap(bindings) && AsMap(bindings)[item.0] == item.1 {
      var i :| 0 <= i < |bindings| && bindings[i].0 == item.0;
      AsMapSpec(bindings, i);
      assert bindings[i] == item;
    }
  }

  lemma {:induction false} EachOnce(bindings: Bindings, item: (string, Binding))
    requires ValidBindings(bindings)
    ensures multiset(bindings)[item] == if item in bindings then 1 else 0
    decreases |bindings|
  {
    if bindings != [] {
      var last := |bindings| - 1;
      assert bindings == bindings[..last] + [bindings[last]];
      EachOnce(bindings[..last], item);
    }
  }

  /** Two binding maps with the same entries are reorderings of each other. */
  lemma SameMapShuffles(a: Bindings, b: Bindings)
    requires ValidBindings(a) && ValidBindings(b) && AsMap(a) == AsMap(b)
    ensures Shuffled(a, b)
  {
    hide AsMap, ValidBindings;
    forall item ensures multiset(a)[item] == multiset(b)[item] {
      AsMapHas(a, item);
      AsMapHas(b, item);
      EachOnce(a, item);
      EachOnce(b, item);
    }
  }

  lemma ShuffledMaps(a: Bindings, b: Bindings)
    requires ValidBindings(a) && ValidBindings(b) && Shuffled(a, b)
    ensures AsMap(a) == AsMap(b)
  {
    hide AsMap, ValidBindings;
    NamesWithin(a, b);
    NamesWithin(b, a);
    AsMapSpec(a, |a|);
    AsMapSpec(b, |b|);
    forall name | name in NamesOf(a) ensures AsMap(a)[name] == AsMap(b)[name] {
      var i :| 0 <= i < |a| && a[i].0 == name;
      var j := SameItems(a, b, i);
      AsMapSpec(a, i);
      AsMapSpec(b, j);
    }
  }

  /** Two contracts have one digest exactly when they differ in nothing but the order of their bindings. */
  lemma DigestDecides(c: Contract, c': Contract)
    requires ValidContract(c) && ValidContract(c')
    ensures DigestOf(c') == DigestOf(c) <==> Reordered(c, c')
  {
    hide AsMap, ValidBindings, Shuffled;
    if Reordered(c, c') {
      ShuffledMaps(c.constructorArguments, c'.constructorArguments);
      ShuffledMaps(c.arguments, c'.arguments);
    }
    if DigestOf(c') == DigestOf(c) {
      SameMapShuffles(c.constructorArguments, c'.constructorArguments);
      SameMapShuffles(c.arguments, c'.arguments);
    }
  }

  // ---------------------------------------------------------------- which contracts compile

  /** Among the callables of this id, `c` is the first of the highest score. */
  predicate BestAt(callables: seq<Callable>, id: string, i: nat)
    requires i < |callables|
  {
    && callables[i].id == id
    && (forall j :: 0 <= j < |callables| && callables[j].id == id ==> callables[j].score <= callables[i].score)
    && (forall j :: 0 <= j < i && callables[j].id == id ==> callables[j].score < callables[i].score)
  }

  /** Scanning the list sorted by score finds the first of the best, if the id is there at all. */
  lemma {:induction false} BestSpec(callables: seq<Callable>, id: string)
    ensures var best := Best(callables, id);
      if best.None? then forall j :: 0 <= j < |callables| ==> callables[j].id != id
      else exists i :: 0 <= i < |callables| && callables[i] == best.value && BestAt(callables, id, i)
    decreases |callables|
  {
    if callables != [] {
      var rest := callables[1..];
      BestSpec(rest, id);
      assert forall j :: 1 <= j < |callables| ==> callables[j] == rest[j - 1];
      var tail := Best(rest, id);
      if callables[0].id == id && (tail.None? || callables[0].score >= tail.value.score) {
        assert BestAt(callables, id, 0);
      } else if tail.Some? {
        var i :| 0 <= i < |rest| && rest[i] == tail.value && BestAt(rest, id, i);
        assert BestAt(callables, id, i + 1) && callables[i + 1] == tail.value;
      }
    }
  }

  /** Every bound name is a parameter, and every required parameter is bound. */
  predicate Complete(parameters: seq<Parameter>, names: set<string>) {
    names <= Named(parameters) && forall i ::
      0 <= i < |parameters| && parameters[i].required ==> parameters[i].name in names
  }

  lemma ValidateIff(parameters: seq<Parameter>, names: set<string>)
    ensures Validate(parameters, names).None? <==> Complete(parameters, names)
  {
  }

  /** The contract fits this callable of the catalog, and its parameter definitions agree. */
  ghost predicate Fits(c: Contract, callable: Callable, catalog: Catalog)
    requires ValidContract(c)
  {
    && Supported(callable, catalog)
    && (callable.kind.InstanceMethod? || c.constructorArguments == [])
    && Complete(ConstructorDefs(callable, catalog), NamesOf(c.constructorArguments))
    && Complete(callable.parameters, NamesOf(c.arguments))
    && Ready(c, callable, catalog)
    && Consistent(ConstructorDemands(c, callable, catalog) + ArgumentDemands(c, callable, catalog))
    && TargetPayload(callable).Some?
  }

  lemma SelectedIff(c: Contract, catalog: Catalog)
    ensures var found := CallableById(catalog, c.callableId);
      Selected(c, catalog).Ok? <==>
        && c.origin.revision == catalog.revision && c.origin.pythonPath == catalog.pythonPath && !catalog.hasErrors
        && found.Some? && Supported(found.value, catalog)
        && (found.value.kind.InstanceMethod? || c.constructorArguments == [])
        && Complete(ConstructorDefs(found.value, catalog), NamesOf(c.constructorArguments))
        && Complete(found.value.parameters, NamesOf(c.arguments))
    ensures Selected(c, catalog).Ok? ==> CallableById(catalog, c.callableId) == Some(Selected(c, catalog).value)
  {
    hide CallableById, Supported, Complete, Validate;
    var found := CallableById(catalog, c.callableId);
    if found.Some? && Supported(found.value, catalog) {
      ValidateIff(ConstructorDefs(found.value, catalog), NamesOf(c.constructorArguments));
      ValidateIff(found.value.parameters, NamesOf(c.arguments));
      NoNames(c.constructorArguments);
    }
  }

  lemma NoNames(bindings: Bindings)
    ensures NamesOf(bindings) == {} <==> bindings == []
  {
    if bindings != [] { assert bindings[0].0 in NamesOf(bindings); }
  }

  /**
   * A contract compiles exactly when it was made for this snapshot, the snapshot parses, and
   * the contract fits the callable it selects.
   */
  lemma CompilesIff(c: Contract, catalog: Catalog)
    requires ValidContract(c)
    ensures Compile(c, catalog).Ok? <==>
      && c.origin.revision == catalog.revision && c.origin.pythonPath == catalog.pythonPath && !catalog.hasErrors
      && CallableById(catalog, c.callableId).Some? && Fits(c, CallableById(catalog, c.callableId).value, catalog)
  {
    hide Selected, CallableById, Supported, Complete, Demands, Consistent, ValidBindings, Known, Declared, Payloads;
    hide AsMap, InKeyOrder, TargetPayload;
    SelectedIff(c, catalog);
    if Selected(c, catalog).Ok? {
      SelectedIsReady(c, catalog);
      DeclaredSpec(c, Selected(c, catalog).value, catalog);
    }
  }
}
