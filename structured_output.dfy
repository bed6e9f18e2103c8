/**
 * The structured-output schema for Z3 DSL generation and its conversion,
 * `StructuredProgram.to_dsl_dict`, into the dictionary the interpreter reads.
 *
 * Every schema record is a closed datatype (pydantic's `extra="forbid"`).
 * Optional fields are `Option`s whose default is `None`; list fields default
 * to the empty list. A record knows its fields in declaration order, and
 * `DumpModel` is `model_dump(mode="python", exclude_none=True)` over them.
 */
module StructuredOutput {
  import opened Wrappers
  import opened JsonValue

  /** One field of a record as pydantic dumps it: its key and its value, `None` when unset. */
  datatype Field = Field(key: string, value: Option<Value>)

  /** pydantic field names are distinct within a record. */
  predicate DistinctKeys(fs: seq<Field>) {
    forall a, b :: 0 <= a < b < |fs| ==> fs[a].key != fs[b].key
  }

  /** The one-element key set `{k}` when `present`, otherwise empty. */
  function KeyIf(k: string, present: bool): set<string> {
    if present then {k} else {}
  }

  /** The keys a record declares. */
  function KeysOf(fs: seq<Field>): set<string> {
    set i | 0 <= i < |fs| :: fs[i].key
  }

  /** `dump_model`: the dictionary of a record's fields, leaving out every field set to None. */
  function DumpModel(fs: seq<Field>): (d: map<string, Value>)
    requires DistinctKeys(fs)
    ensures forall k :: k in d ==> k in KeysOf(fs)
    ensures forall i :: 0 <= i < |fs| ==> (fs[i].key in d <==> fs[i].value.Some?)
    ensures forall i :: 0 <= i < |fs| && fs[i].value.Some? ==> fs[i].key in d && d[fs[i].key] == fs[i].value.value
  {
    if fs == [] then map[]
    else
      var rest := DumpModel(fs[1..]);
      assert forall i :: 1 <= i < |fs| ==> fs[1..][i - 1] == fs[i];
      if fs[0].value.Some? then rest[fs[0].key := fs[0].value.value] else rest
  }

  /** An optional string as an optional JSON string. */
  function OptStr(o: Option<string>): Option<Value> {
    match o
    case None => None
    case Some(s) => Some(Str(s))
  }

  /** An optional list of strings as an optional JSON array. */
  function OptStrArr(o: Option<seq<string>>): Option<Value> {
    match o
    case None => None
    case Some(xs) => Some(StrArr(xs))
  }

  /** A list of records, each dumped by `dump`, in the same order. */
  function DumpEach<T>(xs: seq<T>, dump: T -> map<string, Value>): (r: seq<Value>)
    ensures |r| == |xs|
    ensures forall i :: 0 <= i < |xs| ==> r[i] == Obj(dump(xs[i]))
  {
    seq(|xs|, i requires 0 <= i < |xs| => Obj(dump(xs[i])))
  }

  /** `SortDefinition`; the schema's `type` field is `sortType` here. */
  datatype SortDefinition = SortDefinition(
    name: string,
    sortType: string,
    values: Option<seq<string>> := None,
    description: Option<string> := None)
  {
    function Fields(): seq<Field> {
      [Field("name", Some(Str(name))), Field("type", Some(Str(sortType))),
       Field("values", OptStrArr(values)), Field("description", OptStr(description))]
    }

    function Dump(): (d: map<string, Value>)
      ensures d.Keys <= {"name", "type", "values", "description"}
      ensures "name" in d && "type" in d
      ensures ("values" in d <==> values.Some?) && ("description" in d <==> description.Some?)
      ensures d["name"] == Str(name) && d["type"] == Str(sortType)
      ensures values.Some? ==> d["values"] == StrArr(values.value)
      ensures description.Some? ==> d["description"] == Str(description.value)
    {
      var fs := Fields();
      assert fs[0].key == "name" && fs[1].key == "type" && fs[2].key == "values" && fs[3].key == "description";
      DumpModel(fs)
    }
  }

  datatype FunctionDefinition = FunctionDefinition(
    name: string,
    domain: seq<string>,
    range: string,
    description: Option<string> := None)
  {
    function Fields(): seq<Field> {
      [Field("name", Some(Str(name))), Field("domain", Some(StrArr(domain))),
       Field("range", Some(Str(range))), Field("description", OptStr(description))]
    }

    function Dump(): (d: map<string, Value>)
      ensures d.Keys <= {"name", "domain", "range", "description"}
      ensures "name" in d && "domain" in d && "range" in d
      ensures "description" in d <==> description.Some?
      ensures d["name"] == Str(name) && d["domain"] == StrArr(domain) && d["range"] == Str(range)
      ensures description.Some? ==> d["description"] == Str(description.value)
    {
      var fs := Fields();
      assert fs[0].key == "name" && fs[1].key == "domain" && fs[2].key == "range" && fs[3].key == "description";
      DumpModel(fs)
    }
  }

  datatype VariableDefinition = VariableDefinition(
    name: string,
    sort: string,
    description: Option<string> := None)
  {
    function Fields(): seq<Field> {
      [Field("name", Some(Str(name))), Field("sort", Some(Str(sort))), Field("description", OptStr(description))]
    }

    function Dump(): (d: map<string, Value>)
      ensures d.Keys <= {"name", "sort", "description"}
      ensures "name" in d && "sort" in d
      ensures "description" in d <==> description.Some?
      ensures d["name"] == Str(name) && d["sort"] == Str(sort)
      ensures description.Some? ==> d["description"] == Str(description.value)
    {
      var fs := Fields();
      assert fs[0].key == "name" && fs[1].key == "sort" && fs[2].key == "description";
      DumpModel(fs)
    }
  }

  /** A knowledge-base entry with an explicit truth value, `True` unless given. */
  datatype KnowledgeAssertion = KnowledgeAssertion(
    assertion: string,
    value: bool := true,
    description: Option<string> := None)
  {
    function Fields(): seq<Field> {
      [Field("assertion", Some(Str(assertion))), Field("value", Some(Bool(value))),
       Field("description", OptStr(description))]
    }

    /** The truth value is never None, so the dump always carries it. */
    function Dump(): (d: map<string, Value>)
      ensures d.Keys <= {"assertion", "value", "description"}
      ensures "assertion" in d && "value" in d
      ensures "description" in d <==> description.Some?
      ensures d["assertion"] == Str(assertion) && d["value"] == Bool(value)
      ensures description.Some? ==> d["description"] == Str(description.value)
    {
      var fs := Fields();
      assert fs[0].key == "assertion" && fs[1].key == "value" && fs[2].key == "description";
      DumpModel(fs)
    }
  }

  /** `KnowledgeEntry = Union[str, KnowledgeAssertion]`. */
  datatype KnowledgeEntry = Text(text: string) | Assertion(entry: KnowledgeAssertion)

  datatype QuantifiedVariable = QuantifiedVariable(name: string, sort: string) {
    function Fields(): seq<Field> {
      [Field("name", Some(Str(name))), Field("sort", Some(Str(sort)))]
    }

    function Dump(): (d: map<string, Value>)
      ensures d.Keys == {"name", "sort"}
      ensures d["name"] == Str(name) && d["sort"] == Str(sort)
    {
      var fs := Fields();
      assert fs[0].key == "name" && fs[1].key == "sort";
      DumpModel(fs)
    }
  }

  /** An optional list of quantified variables as an optional JSON array of their dumps. */
  function OptBindings(o: Option<seq<QuantifiedVariable>>): Option<Value> {
    match o
    case None => None
    case Some(vs) => Some(Arr(DumpEach(vs, (v: QuantifiedVariable) => v.Dump())))
  }

  datatype RuleImplication = RuleImplication(antecedent: string, consequent: string) {
    function Fields(): seq<Field> {
      [Field("antecedent", Some(Str(antecedent))), Field("consequent", Some(Str(consequent)))]
    }

    function Dump(): (d: map<string, Value>)
      ensures d.Keys == {"antecedent", "consequent"}
      ensures d["antecedent"] == Str(antecedent) && d["consequent"] == Str(consequent)
    {
      var fs := Fields();
      assert fs[0].key == "antecedent" && fs[1].key == "consequent";
      DumpModel(fs)
    }
  }

  /** A rule; the schema's `forall` field is `forallVars` here. */
  datatype RuleDefinition = RuleDefinition(
    name: Option<string> := None,
    forallVars: Option<seq<QuantifiedVariable>> := None,
    implies: Option<RuleImplication> := None,
    constraint: Option<string> := None,
    description: Option<string> := None)
  {
    function Fields(): seq<Field> {
      [Field("name", OptStr(name)),
       Field("forall", OptBindings(forallVars)),
       Field("implies", if implies.Some? then Some(Obj(implies.value.Dump())) else None),
       Field("constraint", OptStr(constraint)),
       Field("description", OptStr(description))]
    }

    function Dump(): (d: map<string, Value>)
      ensures d.Keys <= {"name", "forall", "implies", "constraint", "description"}
      ensures ("name" in d <==> name.Some?) && ("forall" in d <==> forallVars.Some?)
        && ("implies" in d <==> implies.Some?) && ("constraint" in d <==> constraint.Some?)
        && ("description" in d <==> description.Some?)
      ensures forallVars.Some? ==> d["forall"] == Arr(DumpEach(forallVars.value, (v: QuantifiedVariable) => v.Dump()))
      ensures implies.Some? ==> d["implies"] == Obj(implies.value.Dump())
      ensures constraint.Some? ==> d["constraint"] == Str(constraint.value)
    {
      var fs := Fields();
      assert fs[0].key == "name" && fs[1].key == "forall" && fs[2].key == "implies"
        && fs[3].key == "constraint" && fs[4].key == "description";
      DumpModel(fs)
    }
  }

  datatype VerificationImplication = VerificationImplication(antecedent: string, consequent: string) {
    function Fields(): seq<Field> {
      [Field("antecedent", Some(Str(antecedent))), Field("consequent", Some(Str(consequent)))]
    }

    function Dump(): (d: map<string, Value>)
      ensures d.Keys == {"antecedent", "consequent"}
      ensures d["antecedent"] == Str(antecedent) && d["consequent"] == Str(consequent)
    {
      var fs := Fields();
      assert fs[0].key == "antecedent" && fs[1].key == "consequent";
      DumpModel(fs)
    }
  }

  /** A verification condition; the schema's `exists` and `forall` are `existsVars` and `forallVars`. */
  datatype VerificationDefinition = VerificationDefinition(
    name: Option<string> := None,
    constraint: Option<string> := None,
    existsVars: Option<seq<QuantifiedVariable>> := None,
    forallVars: Option<seq<QuantifiedVariable>> := None,
    implies: Option<VerificationImplication> := None,
    description: Option<string> := None)
  {
    function Fields(): seq<Field> {
      [Field("name", OptStr(name)),
       Field("constraint", OptStr(constraint)),
       Field("exists", OptBindings(existsVars)),
       Field("forall", OptBindings(forallVars)),
       Field("implies", if implies.Some? then Some(Obj(implies.value.Dump())) else None),
       Field("description", OptStr(description))]
    }

    function Dump(): (d: map<string, Value>)
      ensures d.Keys <= {"name", "constraint", "exists", "forall", "implies", "description"}
      ensures ("name" in d <==> name.Some?) && ("constraint" in d <==> constraint.Some?)
        && ("exists" in d <==> existsVars.Some?) && ("forall" in d <==> forallVars.Some?)
        && ("implies" in d <==> implies.Some?) && ("description" in d <==> description.Some?)
      ensures constraint.Some? ==> d["constraint"] == Str(constraint.value)
      ensures existsVars.Some? ==> d["exists"] == Arr(DumpEach(existsVars.value, (v: QuantifiedVariable) => v.Dump()))
      ensures forallVars.Some? ==> d["forall"] == Arr(DumpEach(forallVars.value, (v: QuantifiedVariable) => v.Dump()))
      ensures implies.Some? ==> d["implies"] == Obj(implies.value.Dump())
    {
      var fs := Fields();
      assert fs[0].key == "name" && fs[1].key == "constraint" && fs[2].key == "exists"
        && fs[3].key == "forall" && fs[4].key == "implies" && fs[5].key == "description";
      DumpModel(fs)
    }
  }

  /** `Literal["maximize", "minimize"]`: the only two objective types the schema admits. */
  datatype Direction = Maximize | Minimize {
    function Name(): string {
      match this
      case Maximize => "maximize"
      case Minimize => "minimize"
    }
  }

  /** Validation of the literal: exactly the two names are accepted. */
  function ParseDirection(s: string): (r: Option<Direction>)
    ensures r.Some? <==> s == "maximize" || s == "minimize"
    ensures r.Some? ==> r.value.Name() == s
  {
    if s == "maximize" then Some(Maximize)
    else if s == "minimize" then Some(Minimize)
    else None
  }

  /** Every objective type round-trips through its dumped name. */
  lemma DirectionRoundTrip(dir: Direction)
    ensures ParseDirection(dir.Name()) == Some(dir)
    ensures dir.Name() == "maximize" || dir.Name() == "minimize"
  {
  }

  /** An optimization objective; the schema's `type` field is `direction` here. */
  datatype ObjectiveDefinition = ObjectiveDefinition(direction: Direction, expression: string) {
    function Fields(): seq<Field> {
      [Field("type", Some(Str(direction.Name()))), Field("expression", Some(Str(expression)))]
    }

    function Dump(): (d: map<string, Value>)
      ensures d.Keys == {"type", "expression"}
      ensures d["type"] == Str("maximize") || d["type"] == Str("minimize")
      ensures ParseDirection(d["type"].s) == Some(direction)
      ensures d["expression"] == Str(expression)
    {
      var fs := Fields();
      assert fs[0].key == "type" && fs[1].key == "expression";
      DirectionRoundTrip(direction);
      DumpModel(fs)
    }
  }

  datatype OptimizationConfig = OptimizationConfig(
    variables: seq<VariableDefinition> := [],
    constraints: seq<string> := [],
    objectives: seq<ObjectiveDefinition> := [],
    description: Option<string> := None)
  {
    function Fields(): seq<Field> {
      [Field("variables", Some(Arr(DumpEach(variables, (v: VariableDefinition) => v.Dump())))),
       Field("constraints", Some(StrArr(constraints))),
       Field("objectives", Some(Arr(DumpEach(objectives, (o: ObjectiveDefinition) => o.Dump())))),
       Field("description", OptStr(description))]
    }

    /** The three lists are never None, so they are dumped even when empty. */
    function Dump(): (d: map<string, Value>)
      ensures d.Keys <= {"variables", "constraints", "objectives", "description"}
      ensures "variables" in d && "constraints" in d && "objectives" in d
      ensures "description" in d <==> description.Some?
      ensures d["variables"] == Arr(DumpEach(variables, (v: VariableDefinition) => v.Dump()))
      ensures d["constraints"] == StrArr(constraints)
      ensures d["objectives"] == Arr(DumpEach(objectives, (o: ObjectiveDefinition) => o.Dump()))
    {
      var fs := Fields();
      assert fs[0].key == "variables" && fs[1].key == "constraints" && fs[2].key == "objectives"
        && fs[3].key == "description";
      DumpModel(fs)
    }
  }

  /** `Union[List[str], Dict[str, str]]`: the members of a constant group. */
  datatype Members = MemberList(names: seq<string>) | MemberMap(entries: map<string, string>) {
    function Dump(): (v: Value)
      ensures MemberList? ==> v == StrArr(names)
      ensures MemberMap? ==> v.Obj? && v.fields.Keys == entries.Keys
      ensures MemberMap? ==> forall k :: k in entries ==> v.fields[k] == Str(entries[k])
    {
      match this
      case MemberList(ns) => StrArr(ns)
      case MemberMap(es) => Obj(map k | k in es :: Str(es[k]))
    }
  }

  datatype ConstantDefinition = ConstantDefinition(
    sort: string,
    members: Members,
    description: Option<string> := None)
  {
    function Fields(): seq<Field> {
      [Field("sort", Some(Str(sort))), Field("members", Some(members.Dump())), Field("description", OptStr(description))]
    }

    function Dump(): (d: map<string, Value>)
      ensures d.Keys <= {"sort", "members", "description"}
      ensures "sort" in d && "members" in d
      ensures "description" in d <==> description.Some?
      ensures d["sort"] == Str(sort) && d["members"] == members.Dump()
      ensures description.Some? ==> d["description"] == Str(description.value)
    {
      var fs := Fields();
      assert fs[0].key == "sort" && fs[1].key == "members" && fs[2].key == "description";
      DumpModel(fs)
    }
  }

  /** The default action list used when a program names none. */
  const DefaultActions: seq<string> := ["verify_conditions"]

  /** The eight keys every interpreter program carries. */
  const SectionKeys: set<string> :=
    {"sorts", "functions", "constants", "variables", "knowledge_base", "rules", "verifications", "actions"}

  /** One knowledge entry as the interpreter reads it: strings pass through, assertions are dumped. */
  function EntryData(e: KnowledgeEntry): Value {
    match e
    case Text(t) => Str(t)
    case Assertion(a) => Obj(a.Dump())
  }

  function KnowledgeData(kb: seq<KnowledgeEntry>): seq<Value> {
    seq(|kb|, i requires 0 <= i < |kb| => EntryData(kb[i]))
  }

  function ConstantsData(constants: map<string, ConstantDefinition>): (r: map<string, Value>)
    ensures r.Keys == constants.Keys
  {
    map name | name in constants :: Obj(constants[name].Dump())
  }

  function ActionsData(actions: seq<string>): Value {
    if actions != [] then StrArr(actions) else StrArr(DefaultActions)
  }

  datatype StructuredProgram = StructuredProgram(
    sorts: seq<SortDefinition> := [],
    functions: seq<FunctionDefinition> := [],
    constants: map<string, ConstantDefinition> := map[],
    variables: seq<VariableDefinition> := [],
    knowledgeBase: seq<KnowledgeEntry> := [],
    rules: seq<RuleDefinition> := [],
    verifications: seq<VerificationDefinition> := [],
    optimization: Option<OptimizationConfig> := None,
    actions: seq<string> := [])
  {
    /** The eight sections every interpreter program carries. */
    function Sections(): (d: map<string, Value>)
      ensures d.Keys == SectionKeys
    {
      map[
        "sorts" := Arr(DumpEach(sorts, (x: SortDefinition) => x.Dump())),
        "functions" := Arr(DumpEach(functions, (x: FunctionDefinition) => x.Dump())),
        "constants" := Obj(ConstantsData(constants)),
        "variables" := Arr(DumpEach(variables, (x: VariableDefinition) => x.Dump())),
        "knowledge_base" := Arr(KnowledgeData(knowledgeBase)),
        "rules" := Arr(DumpEach(rules, (x: RuleDefinition) => x.Dump())),
        "verifications" := Arr(DumpEach(verifications, (x: VerificationDefinition) => x.Dump())),
        "actions" := ActionsData(actions)
      ]
    }

    /**
     * The interpreter dictionary of this program: the eight sections always,
     * and `optimization` exactly when it is set.
     */
    function DslDict(): (d: map<string, Value>)
      ensures d.Keys == SectionKeys + KeyIf("optimization", optimization.Some?)
      ensures "optimization" in d <==> optimization.Some?
      ensures optimization.Some? ==> d["optimization"] == Obj(optimization.value.Dump())
    {
      var program := Sections();
      if optimization.Some? then program["optimization" := Obj(optimization.value.Dump())] else program
    }

    /** `to_dsl_dict`, building the knowledge-base section with a loop. */
    method ToDslDict() returns (program: map<string, Value>)
      ensures program == DslDict()
    {
      var sortsData := DumpEach(sorts, (x: SortDefinition) => x.Dump());
      var functionsData := DumpEach(functions, (x: FunctionDefinition) => x.Dump());
      var variablesData := DumpEach(variables, (x: VariableDefinition) => x.Dump());
      var knowledgeEntries := KnowledgeEntries(knowledgeBase);
      assert knowledgeEntries == KnowledgeData(knowledgeBase);
      var rulesData := DumpEach(rules, (x: RuleDefinition) => x.Dump());
      var verificationsData := DumpEach(verifications, (x: VerificationDefinition) => x.Dump());
      var actionsData := if actions != [] then StrArr(actions) else StrArr(DefaultActions);
      program := map[
        "sorts" := Arr(sortsData),
        "functions" := Arr(functionsData),
        "constants" := Obj(map name | name in constants :: Obj(constants[name].Dump())),
        "variables" := Arr(variablesData),
        "knowledge_base" := Arr(knowledgeEntries),
        "rules" := Arr(rulesData),
        "verifications" := Arr(verificationsData),
        "actions" := actionsData
      ];
      if optimization.Some? {
        program := program["optimization" := Obj(optimization.value.Dump())];
      }
    }
  }

  /**
   * The knowledge-base loop of `to_dsl_dict`: one output entry per input entry,
   * in order; a string is kept as it is and an assertion becomes its dump.
   */
  method KnowledgeEntries(kb: seq<KnowledgeEntry>) returns (entries: seq<Value>)
    ensures |entries| == |kb|
    ensures forall i :: 0 <= i < |kb| && kb[i].Text? ==> entries[i] == Str(kb[i].text)
    ensures forall i :: 0 <= i < |kb| && kb[i].Assertion? ==> entries[i] == Obj(kb[i].entry.Dump())
  {
    entries := [];
    for i := 0 to |kb|
      invariant |entries| == i
      invariant forall t :: 0 <= t < i && kb[t].Text? ==> entries[t] == Str(kb[t].text)
      invariant forall t :: 0 <= t < i && kb[t].Assertion? ==> entries[t] == Obj(kb[t].entry.Dump())
    {
      match kb[i]
      case Assertion(a) =>
        entries := entries + [Obj(a.Dump())];
      case Text(t) =>
        entries := entries + [Str(t)];
    }
  }

  /** An empty action list becomes `["verify_conditions"]`; any other is kept in order. */
  lemma ActionsDefault(p: StructuredProgram)
    ensures p.actions == [] ==> p.DslDict()["actions"] == Arr([Str("verify_conditions")])
    ensures p.actions != [] ==> var a := p.DslDict()["actions"];
      a.Arr? && |a.items| == |p.actions| && forall i :: 0 <= i < |p.actions| ==> a.items[i] == Str(p.actions[i])
  {
    var a := p.DslDict()["actions"];
    if p.actions == [] {
      assert a.items == [Str("verify_conditions")];
    }
  }

  /** The list sections keep the length and order of the program's lists, element by element. */
  lemma SectionsElementwise(p: StructuredProgram)
    ensures var s := p.DslDict()["sorts"];
      s.Arr? && |s.items| == |p.sorts| && forall i :: 0 <= i < |p.sorts| ==> s.items[i] == Obj(p.sorts[i].Dump())
    ensures var s := p.DslDict()["functions"];
      s.Arr? && |s.items| == |p.functions| && forall i :: 0 <= i < |p.functions| ==> s.items[i] == Obj(p.functions[i].Dump())
    ensures var s := p.DslDict()["variables"];
      s.Arr? && |s.items| == |p.variables| && forall i :: 0 <= i < |p.variables| ==> s.items[i] == Obj(p.variables[i].Dump())
    ensures var s := p.DslDict()["rules"];
      s.Arr? && |s.items| == |p.rules| && forall i :: 0 <= i < |p.rules| ==> s.items[i] == Obj(p.rules[i].Dump())
    ensures var s := p.DslDict()["verifications"];
      s.Arr? && |s.items| == |p.verifications|
      && forall i :: 0 <= i < |p.verifications| ==> s.items[i] == Obj(p.verifications[i].Dump())
  {
    var d := p.DslDict();
    assert d["sorts"] == p.Sections()["sorts"];
    assert d["functions"] == p.Sections()["functions"];
    assert d["variables"] == p.Sections()["variables"];
    assert d["rules"] == p.Sections()["rules"];
    assert d["verifications"] == p.Sections()["verifications"];
  }

  /** Knowledge entries keep length and order; strings pass through, assertions are dumped. */
  lemma KnowledgeElementwise(p: StructuredProgram)
    ensures var k := p.DslDict()["knowledge_base"];
      && k.Arr? && |k.items| == |p.knowledgeBase|
      && (forall i :: 0 <= i < |p.knowledgeBase| && p.knowledgeBase[i].Text? ==> k.items[i] == Str(p.knowledgeBase[i].text))
      && (forall i :: 0 <= i < |p.knowledgeBase| && p.knowledgeBase[i].Assertion? ==>
            k.items[i] == Obj(p.knowledgeBase[i].entry.Dump()))
  {
  }

  /** The constants section has exactly the program's group names, each mapped to its group's dump. */
  lemma ConstantsKeys(p: StructuredProgram)
    ensures var c := p.DslDict()["constants"];
      c.Obj? && c.fields.Keys == p.constants.Keys
      && forall name :: name in p.constants ==> c.fields[name] == Obj(p.constants[name].Dump())
  {
    assert p.DslDict()["constants"] == Obj(ConstantsData(p.constants));
  }

  /** An assertion given without a truth value is dumped with `"value": True`. */
  lemma AssertionValueDefault(assertion: string, description: Option<string>)
    ensures var d := KnowledgeAssertion(assertion, description := description).Dump();
      "value" in d && d["value"] == Bool(true)
  {
  }
}
