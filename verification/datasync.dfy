/**
 `CreateLocationFsxOntapResult`: the result reader of one DataSync operation. It reads
 the single key "LocationArn" and keeps no presence flag.
 */
module DataSync {
  import opened Json

  const LocationArnKey := "LocationArn"

  datatype CreateLocationFsxOntapResult = CreateLocationFsxOntapResult(locationArn: string)

  /** The default constructor. */
  function Default(): (r: CreateLocationFsxOntapResult)
    ensures r.locationArn == ""
  {
    CreateLocationFsxOntapResult("")
  }

  /** `operator=(AmazonWebServiceResult)`: the field takes the string under
      "LocationArn" when that key exists, and keeps its prior value otherwise. */
  function Assign(r: CreateLocationFsxOntapResult, result: WebServiceResult): (r': CreateLocationFsxOntapResult)
    ensures ValueExists(result.payload, LocationArnKey) ==>
      r'.locationArn == GetString(result.payload, LocationArnKey)
    ensures !ValueExists(result.payload, LocationArnKey) ==> r' == r
  {
    if ValueExists(result.payload, LocationArnKey) then
      CreateLocationFsxOntapResult(GetString(result.payload, LocationArnKey))
    else r
  }

  /** The constructor from a result: default construction, then `operator=`.
      A result without the key yields the default object. */
  function FromResult(result: WebServiceResult): (r: CreateLocationFsxOntapResult)
    ensures !ValueExists(result.payload, LocationArnKey) ==> r == Default()
    ensures ValueExists(result.payload, LocationArnKey) ==>
      r.locationArn == GetString(result.payload, LocationArnKey)
  {
    Assign(Default(), result)
  }

  /** Only the value under "LocationArn" is consulted: other payload keys,
      the headers and the status code do not affect the result. */
  lemma AssignReadsOnlyItsKey(r: CreateLocationFsxOntapResult, a: WebServiceResult, b: WebServiceResult)
    requires AgreeOn(a.payload, b.payload, LocationArnKey)
    ensures Assign(r, a) == Assign(r, b)
  {
    AccessorsReadOnlyTheirKey(a.payload, b.payload, LocationArnKey);
  }

  /** Applying `operator=` twice with the same result is the same as once. */
  lemma AssignIdempotent(r: CreateLocationFsxOntapResult, result: WebServiceResult)
    ensures Assign(Assign(r, result), result) == Assign(r, result)
  {
  }

  /** When the key is present the prior state is irrelevant; when it is
      absent the prior state is all there is. */
  lemma AssignOverwritesOnlyWhenPresent(r1: CreateLocationFsxOntapResult, r2: CreateLocationFsxOntapResult, result: WebServiceResult)
    ensures ValueExists(result.payload, LocationArnKey) ==> Assign(r1, result) == Assign(r2, result)
    ensures !ValueExists(result.payload, LocationArnKey) && r1 != r2 ==>
      Assign(r1, result) != Assign(r2, result)
  {
  }
}
