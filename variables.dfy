/** The variable definitions published for the registered parameters (src/variables.ts). */
module Variables {
  import opened Ember

  /** A variable definition: its display name and its id. */
  datatype VariableDefinition = VariableDefinition(name: string, variableId: string)

  /** One definition per registry entry, in registry order: the name is the parameter's protocol
      path and the id is its dotted label. */
  function Definitions(registry: seq<MonitoredParameter>): (r: seq<VariableDefinition>)
    ensures |r| == |registry|
    ensures forall k :: 0 <= k < |r| ==> r[k].name == registry[k].id && r[k].variableId == registry[k].dottedLabel
  {
    if registry == [] then []
    else [VariableDefinition(registry[0].id, registry[0].dottedLabel)] + Definitions(registry[1..])
  }

  /** `GetVariablesList`: the definitions of the registry, or none when there is no registry yet. */
  function GetVariablesList(registry: Option<seq<MonitoredParameter>>): (r: seq<VariableDefinition>)
    ensures registry.None? ==> r == []
    ensures registry.Some? ==> r == Definitions(registry.value)
  {
    match registry
    case None => []
    case Some(entries) => Definitions(entries)
  }

  /** Registering one more parameter adds exactly its definition at the end. */
  lemma {:induction false} DefinitionsAppend(registry: seq<MonitoredParameter>, entry: MonitoredParameter)
    ensures Definitions(registry + [entry]) == Definitions(registry) + [VariableDefinition(entry.id, entry.dottedLabel)]
  {
    if registry != [] {
      DefinitionsAppend(registry[1..], entry);
      assert (registry + [entry])[1..] == registry[1..] + [entry];
    }
  }

  /** The variable ids are exactly the registered labels. */
  lemma VariableIdsAreLabels(registry: seq<MonitoredParameter>)
    ensures forall v :: v in Definitions(registry) ==>
      exists k :: 0 <= k < |registry| && v.variableId == registry[k].dottedLabel
    ensures forall k :: 0 <= k < |registry| ==>
      VariableDefinition(registry[k].id, registry[k].dottedLabel) in Definitions(registry)
  {
    var d := Definitions(registry);
    forall v | v in d
      ensures exists k :: 0 <= k < |registry| && v.variableId == registry[k].dottedLabel
    {
      var k :| 0 <= k < |d| && d[k] == v;
      assert v.variableId == registry[k].dottedLabel;
    }
    forall k | 0 <= k < |registry|
      ensures VariableDefinition(registry[k].id, registry[k].dottedLabel) in d
    {
      assert d[k] == VariableDefinition(registry[k].id, registry[k].dottedLabel);
    }
  }
}
