/**
 Glue `JDBCConnectorTarget`: eight presence-tracked fields, two lists and a
 string-to-string map with adders. `GlueSchema` is not part of this model
 (`Opaque`).
 */
module Glue {
  import opened Presence

  datatype JDBCConnectorTarget = JDBCConnectorTarget(
    name: Tracked<string>,
    inputs: Tracked<seq<string>>,
    connectionName: Tracked<string>,
    connectionTable: Tracked<string>,
    connectorName: Tracked<string>,
    connectionType: Tracked<string>,
    additionalOptions: Tracked<map<string, string>>,
    outputSchemas: Tracked<seq<Opaque>>)

  /** The HasBeenSet flags, in declaration order. */
  function Flags(p: JDBCConnectorTarget): seq<bool>
  {
    [ p.name.hasBeenSet
    , p.inputs.hasBeenSet
    , p.connectionName.hasBeenSet
    , p.connectionTable.hasBeenSet
    , p.connectorName.hasBeenSet
    , p.connectionType.hasBeenSet
    , p.additionalOptions.hasBeenSet
    , p.outputSchemas.hasBeenSet ]
  }

  /** Default construction. The constructor body is not part of this model, so
      the initial values are a parameter; the member initialisers lower every
      flag. */
  function Default(initial: JDBCConnectorTarget): (p: JDBCConnectorTarget)
    ensures true !in Flags(p)
    ensures p.name.value == initial.name.value
         && p.inputs.value == initial.inputs.value
         && p.connectionName.value == initial.connectionName.value
         && p.connectionTable.value == initial.connectionTable.value
         && p.connectorName.value == initial.connectorName.value
         && p.connectionType.value == initial.connectionType.value
         && p.additionalOptions.value == initial.additionalOptions.value
         && p.outputSchemas.value == initial.outputSchemas.value
  {
    JDBCConnectorTarget(
      Unset(initial.name.value),
      Unset(initial.inputs.value),
      Unset(initial.connectionName.value),
      Unset(initial.connectionTable.value),
      Unset(initial.connectorName.value),
      Unset(initial.connectionType.value),
      Unset(initial.additionalOptions.value),
      Unset(initial.outputSchemas.value))
  }

  /** `SetName` (`WithName` has the same effect and returns the object):
      stores the value and raises only this field's flag. */
  function SetName(p: JDBCConnectorTarget, v: string): (r: JDBCConnectorTarget)
    ensures r.name == Tracked(v, true)
    ensures r.(name := p.name) == p
    ensures Flags(r) == Flags(p)[0 := true]
  {
    p.(name := Set(p.name, v))
  }

  /** `SetInputs` (`WithInputs` has the same effect and returns the object):
      stores the value and raises only this field's flag. */
  function SetInputs(p: JDBCConnectorTarget, v: seq<string>): (r: JDBCConnectorTarget)
    ensures r.inputs == Tracked(v, true)
    ensures r.(inputs := p.inputs) == p
    ensures Flags(r) == Flags(p)[1 := true]
  {
    p.(inputs := Set(p.inputs, v))
  }

  /** `AddInputs`: `push_back` at the end of the list; the flag is raised. */
  function AddInputs(p: JDBCConnectorTarget, x: string): (r: JDBCConnectorTarget)
    ensures r.inputs.value == p.inputs.value + [x] && r.inputs.hasBeenSet
    ensures r.(inputs := p.inputs) == p
    ensures Flags(r) == Flags(p)[1 := true]
  {
    p.(inputs := Add(p.inputs, x))
  }

  /** `AddInputs` applied to each element of xs, in order. */
  function AddInputsEach(p: JDBCConnectorTarget, xs: seq<string>): JDBCConnectorTarget
    decreases |xs|
  {
    if xs == [] then p else AddInputsEach(AddInputs(p, xs[0]), xs[1..])
  }

  /** Adding elements one at a time is the same as setting the list
      extended by all of them: order is kept, nothing is dropped or
      deduplicated, and no other field moves. */
  lemma {:induction false} AddInputsEachAppends(p: JDBCConnectorTarget, xs: seq<string>)
    ensures AddInputsEach(p, xs) == p.(inputs := AddAll(p.inputs, xs))
    ensures xs != [] ==> AddInputsEach(p, xs) == SetInputs(p, p.inputs.value + xs)
    decreases |xs|
  {
    if xs != [] {
      AddInputsEachAppends(AddInputs(p, xs[0]), xs[1..]);
    }
    AddAllAppends(p.inputs, xs);
  }

  /** `SetConnectionName` (`WithConnectionName` has the same effect and returns the object):
      stores the value and raises only this field's flag. */
  function SetConnectionName(p: JDBCConnectorTarget, v: string): (r: JDBCConnectorTarget)
    ensures r.connectionName == Tracked(v, true)
    ensures r.(connectionName := p.connectionName) == p
    ensures Flags(r) == Flags(p)[2 := true]
  {
    p.(connectionName := Set(p.connectionName, v))
  }

  /** `SetConnectionTable` (`WithConnectionTable` has the same effect and returns the object):
      stores the value and raises only this field's flag. */
  function SetConnectionTable(p: JDBCConnectorTarget, v: string): (r: JDBCConnectorTarget)
    ensures r.connectionTable == Tracked(v, true)
    ensures r.(connectionTable := p.connectionTable) == p
    ensures Flags(r) == Flags(p)[3 := true]
  {
    p.(connectionTable := Set(p.connectionTable, v))
  }

  /** `SetConnectorName` (`WithConnectorName` has the same effect and returns the object):
      stores the value and raises only this field's flag. */
  function SetConnectorName(p: JDBCConnectorTarget, v: string): (r: JDBCConnectorTarget)
    ensures r.connectorName == Tracked(v, true)
    ensures r.(connectorName := p.connectorName) == p
    ensures Flags(r) == Flags(p)[4 := true]
  {
    p.(connectorName := Set(p.connectorName, v))
  }

  /** `SetConnectionType` (`WithConnectionType` has the same effect and returns the object):
      stores the value and raises only this field's flag. */
  function SetConnectionType(p: JDBCConnectorTarget, v: string): (r: JDBCConnectorTarget)
    ensures r.connectionType == Tracked(v, true)
    ensures r.(connectionType := p.connectionType) == p
    ensures Flags(r) == Flags(p)[5 := true]
  {
    p.(connectionType := Set(p.connectionType, v))
  }

  /** `SetAdditionalOptions` (`WithAdditionalOptions` has the same effect and returns the object):
      stores the value and raises only this field's flag. */
  function SetAdditionalOptions(p: JDBCConnectorTarget, v: map<string, string>): (r: JDBCConnectorTarget)
    ensures r.additionalOptions == Tracked(v, true)
    ensures r.(additionalOptions := p.additionalOptions) == p
    ensures Flags(r) == Flags(p)[6 := true]
  {
    p.(additionalOptions := Set(p.additionalOptions, v))
  }

  /** `AddAdditionalOptions`: `emplace`, which inserts only a key that is
      absent and never overwrites; the flag is raised either way. */
  function AddAdditionalOptions(p: JDBCConnectorTarget, k: string, v: string): (r: JDBCConnectorTarget)
    ensures k in p.additionalOptions.value ==> r.additionalOptions.value == p.additionalOptions.value
    ensures k !in p.additionalOptions.value ==> r.additionalOptions.value == p.additionalOptions.value[k := v]
    ensures r.additionalOptions.hasBeenSet
    ensures r.(additionalOptions := p.additionalOptions) == p
    ensures Flags(r) == Flags(p)[6 := true]
  {
    p.(additionalOptions := Emplace(p.additionalOptions, k, v))
  }

  /** `AddAdditionalOptions` applied to each pair of kvs, in order. */
  function AddAdditionalOptionsEach(p: JDBCConnectorTarget, kvs: seq<(string, string)>): JDBCConnectorTarget
    decreases |kvs|
  {
    if kvs == [] then p else AddAdditionalOptionsEach(AddAdditionalOptions(p, kvs[0].0, kvs[0].1), kvs[1..])
  }

  /** Adding pairs one at a time keeps every entry already present and,
      for each new key, the value of its first occurrence. */
  lemma {:induction false} AddAdditionalOptionsEachIsFirstWins(p: JDBCConnectorTarget, kvs: seq<(string, string)>)
    ensures AddAdditionalOptionsEach(p, kvs) == p.(additionalOptions := EmplaceAll(p.additionalOptions, kvs))
    ensures kvs != [] ==> AddAdditionalOptionsEach(p, kvs) == SetAdditionalOptions(p, FirstWins(kvs) + p.additionalOptions.value)
    decreases |kvs|
  {
    if kvs != [] {
      AddAdditionalOptionsEachIsFirstWins(AddAdditionalOptions(p, kvs[0].0, kvs[0].1), kvs[1..]);
    }
    EmplaceAllIsFirstWins(p.additionalOptions, kvs);
  }

  /** `SetOutputSchemas` (`WithOutputSchemas` has the same effect and returns the object):
      stores the value and raises only this field's flag. */
  function SetOutputSchemas(p: JDBCConnectorTarget, v: seq<Opaque>): (r: JDBCConnectorTarget)
    ensures r.outputSchemas == Tracked(v, true)
    ensures r.(outputSchemas := p.outputSchemas) == p
    ensures Flags(r) == Flags(p)[7 := true]
  {
    p.(outputSchemas := Set(p.outputSchemas, v))
  }

  /** `AddOutputSchemas`: `push_back` at the end of the list; the flag is raised. */
  function AddOutputSchemas(p: JDBCConnectorTarget, x: Opaque): (r: JDBCConnectorTarget)
    ensures r.outputSchemas.value == p.outputSchemas.value + [x] && r.outputSchemas.hasBeenSet
    ensures r.(outputSchemas := p.outputSchemas) == p
    ensures Flags(r) == Flags(p)[7 := true]
  {
    p.(outputSchemas := Add(p.outputSchemas, x))
  }

  /** `AddOutputSchemas` applied to each element of xs, in order. */
  function AddOutputSchemasEach(p: JDBCConnectorTarget, xs: seq<Opaque>): JDBCConnectorTarget
    decreases |xs|
  {
    if xs == [] then p else AddOutputSchemasEach(AddOutputSchemas(p, xs[0]), xs[1..])
  }

  /** Adding elements one at a time is the same as setting the list
      extended by all of them: order is kept, nothing is dropped or
      deduplicated, and no other field moves. */
  lemma {:induction false} AddOutputSchemasEachAppends(p: JDBCConnectorTarget, xs: seq<Opaque>)
    ensures AddOutputSchemasEach(p, xs) == p.(outputSchemas := AddAll(p.outputSchemas, xs))
    ensures xs != [] ==> AddOutputSchemasEach(p, xs) == SetOutputSchemas(p, p.outputSchemas.value + xs)
    decreases |xs|
  {
    if xs != [] {
      AddOutputSchemasEachAppends(AddOutputSchemas(p, xs[0]), xs[1..]);
    }
    AddAllAppends(p.outputSchemas, xs);
  }

  /** A second add of the same option keeps the first value. */
  lemma AdditionalOptionKeepsFirstValue(p: JDBCConnectorTarget, k: string, v1: string, v2: string)
    ensures AddAdditionalOptions(AddAdditionalOptions(p, k, v1), k, v2) == AddAdditionalOptions(p, k, v1)
    ensures k !in p.additionalOptions.value ==>
      AddAdditionalOptions(AddAdditionalOptions(p, k, v1), k, v2).additionalOptions.value[k] == v1
  {
  }

  /** `SetAdditionalOptions` replaces the map wholesale. */
  lemma SetAdditionalOptionsDiscardsAdded(p: JDBCConnectorTarget, k: string, v: string, m: map<string, string>)
    ensures SetAdditionalOptions(AddAdditionalOptions(p, k, v), m) == SetAdditionalOptions(p, m)
  {
  }
}
