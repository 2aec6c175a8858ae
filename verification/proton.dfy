/**
 `CreateEnvironmentTemplateResult`: the result reader of one Proton operation. It reads
 the single key "environmentTemplate" and keeps no presence flag.
 */
module Proton {
  import opened Json

  const EnvironmentTemplateKey := "environmentTemplate"

  /** The nested `EnvironmentTemplate` model, carried as the object its own
      writer would produce. Assigning a JSON view to it merges: members
      present in the view are assigned, the others are kept. */
  datatype EnvironmentTemplate = EnvironmentTemplate(json: Object)

  datatype CreateEnvironmentTemplateResult = CreateEnvironmentTemplateResult(environmentTemplate: EnvironmentTemplate)

  /** The default constructor. */
  function Default(): (r: CreateEnvironmentTemplateResult)
    ensures r.environmentTemplate == EnvironmentTemplate(map[])
  {
    CreateEnvironmentTemplateResult(EnvironmentTemplate(map[]))
  }

  /** `operator=(AmazonWebServiceResult)`: when "environmentTemplate" exists,
      the object under it is assigned to the field through the nested
      `operator=(JsonView)`, which merges its members into the prior
      template; otherwise the field keeps its prior value. */
  function Assign(r: CreateEnvironmentTemplateResult, result: WebServiceResult): (r': CreateEnvironmentTemplateResult)
    ensures ValueExists(result.payload, EnvironmentTemplateKey) ==>
      r'.environmentTemplate == EnvironmentTemplate(Merge(r.environmentTemplate.json, GetObject(result.payload, EnvironmentTemplateKey)))
    ensures !ValueExists(result.payload, EnvironmentTemplateKey) ==> r' == r
  {
    if ValueExists(result.payload, EnvironmentTemplateKey) then
      CreateEnvironmentTemplateResult(EnvironmentTemplate(Merge(r.environmentTemplate.json, GetObject(result.payload, EnvironmentTemplateKey))))
    else r
  }

  /** The constructor from a result: default construction, then `operator=`.
      A result without the key yields the default object. */
  function FromResult(result: WebServiceResult): (r: CreateEnvironmentTemplateResult)
    ensures !ValueExists(result.payload, EnvironmentTemplateKey) ==> r == Default()
    ensures ValueExists(result.payload, EnvironmentTemplateKey) ==>
      r.environmentTemplate == EnvironmentTemplate(Present(GetObject(result.payload, EnvironmentTemplateKey)))
  {
    MergeIntoEmpty(GetObject(result.payload, EnvironmentTemplateKey));
    Assign(Default(), result)
  }

  /** Only the value under "environmentTemplate" is consulted: other payload keys,
      the headers and the status code do not affect the result. */
  lemma AssignReadsOnlyItsKey(r: CreateEnvironmentTemplateResult, a: WebServiceResult, b: WebServiceResult)
    requires AgreeOn(a.payload, b.payload, EnvironmentTemplateKey)
    ensures Assign(r, a) == Assign(r, b)
  {
    AccessorsReadOnlyTheirKey(a.payload, b.payload, EnvironmentTemplateKey);
  }

  /** Applying `operator=` twice with the same result is the same as once. */
  lemma AssignIdempotent(r: CreateEnvironmentTemplateResult, result: WebServiceResult)
    ensures Assign(Assign(r, result), result) == Assign(r, result)
  {
    MergeIdempotent(r.environmentTemplate.json, GetObject(result.payload, EnvironmentTemplateKey));
  }

  /** When the key is present, two prior templates end up equal if and only
      if they agreed on every member the incoming object does not assign;
      when it is absent, the prior state is all there is. */
  lemma AssignOverwritesOnlyWhenPresent(r1: CreateEnvironmentTemplateResult, r2: CreateEnvironmentTemplateResult, result: WebServiceResult)
    ensures ValueExists(result.payload, EnvironmentTemplateKey) ==>
      (Assign(r1, result) == Assign(r2, result) <==>
       AgreeOutside(r1.environmentTemplate.json, r2.environmentTemplate.json,
                    Present(GetObject(result.payload, EnvironmentTemplateKey)).Keys))
    ensures !ValueExists(result.payload, EnvironmentTemplateKey) && r1 != r2 ==>
      Assign(r1, result) != Assign(r2, result)
  {
    MergeEqualIff(r1.environmentTemplate.json, r2.environmentTemplate.json, GetObject(result.payload, EnvironmentTemplateKey));
  }
}
