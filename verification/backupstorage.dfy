/**
 `StartObjectResult`: the result reader of one BackupStorage operation. It reads
 the single key "UploadId" and keeps no presence flag.
 */
module BackupStorage {
  import opened Json

  const UploadIdKey := "UploadId"

  datatype StartObjectResult = StartObjectResult(uploadId: string)

  /** The default constructor. */
  function Default(): (r: StartObjectResult)
    ensures r.uploadId == ""
  {
    StartObjectResult("")
  }

  /** `operator=(AmazonWebServiceResult)`: the field takes the string under
      "UploadId" when that key exists, and keeps its prior value otherwise. */
  function Assign(r: StartObjectResult, result: WebServiceResult): (r': StartObjectResult)
    ensures ValueExists(result.payload, UploadIdKey) ==>
      r'.uploadId == GetString(result.payload, UploadIdKey)
    ensures !ValueExists(result.payload, UploadIdKey) ==> r' == r
  {
    if ValueExists(result.payload, UploadIdKey) then
      StartObjectResult(GetString(result.payload, UploadIdKey))
    else r
  }

  /** The constructor from a result: default construction, then `operator=`.
      A result without the key yields the default object. */
  function FromResult(result: WebServiceResult): (r: StartObjectResult)
    ensures !ValueExists(result.payload, UploadIdKey) ==> r == Default()
    ensures ValueExists(result.payload, UploadIdKey) ==>
      r.uploadId == GetString(result.payload, UploadIdKey)
  {
    Assign(Default(), result)
  }

  /** Only the value under "UploadId" is consulted: other payload keys,
      the headers and the status code do not affect the result. */
  lemma AssignReadsOnlyItsKey(r: StartObjectResult, a: WebServiceResult, b: WebServiceResult)
    requires AgreeOn(a.payload, b.payload, UploadIdKey)
    ensures Assign(r, a) == Assign(r, b)
  {
    AccessorsReadOnlyTheirKey(a.payload, b.payload, UploadIdKey);
  }

  /** Applying `operator=` twice with the same result is the same as once. */
  lemma AssignIdempotent(r: StartObjectResult, result: WebServiceResult)
    ensures Assign(Assign(r, result), result) == Assign(r, result)
  {
  }

  /** When the key is present the prior state is irrelevant; when it is
      absent the prior state is all there is. */
  lemma AssignOverwritesOnlyWhenPresent(r1: StartObjectResult, r2: StartObjectResult, result: WebServiceResult)
    ensures ValueExists(result.payload, UploadIdKey) ==> Assign(r1, result) == Assign(r2, result)
    ensures !ValueExists(result.payload, UploadIdKey) && r1 != r2 ==>
      Assign(r1, result) != Assign(r2, result)
  {
  }
}
