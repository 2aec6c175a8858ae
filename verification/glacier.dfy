/**
 The synchronous operation bodies of the Glacier client: each operation checks
 the HasBeenSet flags of its required fields in a fixed order, refuses the
 call with MISSING_PARAMETER naming the first unset one, and otherwise builds
 the request URI from a fixed template and hands it, with a fixed verb, to
 the dispatch routine.
 */
module Glacier {
  import opened Presence
  import opened Client

  /** The request fields that Glacier operations require or place in the path.
      Every operation's request type holds a subset of them; its other members
      only feed the body and headers, which the dispatch routine serialises. */
  datatype PathField = AccountId | VaultName | UploadId | LockId | ArchiveId | JobId

  /** The field name quoted in the MISSING_PARAMETER message. */
  function FieldName(f: PathField): string
  {
    match f
    case AccountId => "AccountId"
    case VaultName => "VaultName"
    case UploadId => "UploadId"
    case LockId => "LockId"
    case ArchiveId => "ArchiveId"
    case JobId => "JobId"
  }

  datatype GlacierRequest = GlacierRequest(
    accountId: Tracked<string>,
    vaultName: Tracked<string>,
    uploadId: Tracked<string>,
    lockId: Tracked<string>,
    archiveId: Tracked<string>,
    jobId: Tracked<string>)

  function Field(req: GlacierRequest, f: PathField): Tracked<string>
  {
    match f
    case AccountId => req.accountId
    case VaultName => req.vaultName
    case UploadId => req.uploadId
    case LockId => req.lockId
    case ArchiveId => req.archiveId
    case JobId => req.jobId
  }

  predicate IsSet(req: GlacierRequest, f: PathField)
  {
    Field(req, f).hasBeenSet
  }

  /** Two requests whose six flags agree (their values may differ). */
  predicate SameFlags(r1: GlacierRequest, r2: GlacierRequest)
  {
    forall f: PathField :: IsSet(r1, f) == IsSet(r2, f)
  }

  /** The synchronous operations of the client. */
  datatype Operation =
    | AbortMultipartUpload | AbortVaultLock | AddTagsToVault | CompleteMultipartUpload
    | CompleteVaultLock | CreateVault | DeleteArchive | DeleteVault
    | DeleteVaultAccessPolicy | DeleteVaultNotifications | DescribeJob | DescribeVault
    | GetDataRetrievalPolicy | GetJobOutput | GetVaultAccessPolicy | GetVaultLock
    | GetVaultNotifications | InitiateJob | InitiateMultipartUpload | InitiateVaultLock
    | ListJobs | ListMultipartUploads | ListParts | ListProvisionedCapacity
    | ListTagsForVault | ListVaults | PurchaseProvisionedCapacity | RemoveTagsFromVault
    | SetDataRetrievalPolicy | SetVaultAccessPolicy | SetVaultNotifications | UploadArchive
    | UploadMultipartPart

  /** A path segment: a literal of the template, or the value of a request field. */
  datatype Segment = Literal(text: string) | FromField(field: PathField)

  /** What an operation body fixes: required fields in check order, the path
      template appended to the base URI, the query string, the verb, and how
      the dispatch routine is called. */
  datatype Route = Route(
    required: seq<PathField>,
    template: seq<Segment>,
    query: Option<string>,
    verb: HttpMethod,
    signer: Signer,
    response: ResponseKind)

  /** `{AccountId}/vaults/{VaultName}` followed by the given segments. */
  function VaultPath(rest: seq<Segment>): seq<Segment>
  {
    [FromField(AccountId), Literal("vaults"), FromField(VaultName)] + rest
  }

  /** The checks of a vault operation: AccountId, VaultName, then the extras. */
  function VaultChecks(extra: seq<PathField>): seq<PathField>
  {
    [AccountId, VaultName] + extra
  }

  function Plain(required: seq<PathField>, template: seq<Segment>, verb: HttpMethod): Route
  {
    Route(required, template, None, verb, Sigv4, Parsed)
  }

  /** The operation table, one entry per synchronous body of the client. */
  function RouteOf(op: Operation): Route
  {
    match op
    case AbortMultipartUpload =>
      Plain(VaultChecks([UploadId]), VaultPath([Literal("multipart-uploads"), FromField(UploadId)]), HttpDelete)
    case AbortVaultLock =>
      Plain(VaultChecks([]), VaultPath([Literal("lock-policy")]), HttpDelete)
    case AddTagsToVault =>
      Route(VaultChecks([]), VaultPath([Literal("tags")]), Some("?operation=add"), HttpPost, Sigv4, Parsed)
    case CompleteMultipartUpload =>
      Plain(VaultChecks([UploadId]), VaultPath([Literal("multipart-uploads"), FromField(UploadId)]), HttpPost)
    case CompleteVaultLock =>
      Plain(VaultChecks([LockId]), VaultPath([Literal("lock-policy"), FromField(LockId)]), HttpPost)
    case CreateVault =>
      Plain(VaultChecks([]), VaultPath([]), HttpPut)
    case DeleteArchive =>
      Plain(VaultChecks([ArchiveId]), VaultPath([Literal("archives"), FromField(ArchiveId)]), HttpDelete)
    case DeleteVault =>
      Plain(VaultChecks([]), VaultPath([]), HttpDelete)
    case DeleteVaultAccessPolicy =>
      Plain(VaultChecks([]), VaultPath([Literal("access-policy")]), HttpDelete)
    case DeleteVaultNotifications =>
      Plain(VaultChecks([]), VaultPath([Literal("notification-configuration")]), HttpDelete)
    case DescribeJob =>
      Plain(VaultChecks([JobId]), VaultPath([Literal("jobs"), FromField(JobId)]), HttpGet)
    case DescribeVault =>
      Plain(VaultChecks([]), VaultPath([]), HttpGet)
    case GetDataRetrievalPolicy =>
      Plain([AccountId], [FromField(AccountId), Literal("policies"), Literal("data-retrieval")], HttpGet)
    case GetJobOutput =>
      Route(VaultChecks([JobId]), VaultPath([Literal("jobs"), FromField(JobId), Literal("output")]),
            None, HttpGet, DefaultSigner, Unparsed)
    case GetVaultAccessPolicy =>
      Plain(VaultChecks([]), VaultPath([Literal("access-policy")]), HttpGet)
    case GetVaultLock =>
      Plain(VaultChecks([]), VaultPath([Literal("lock-policy")]), HttpGet)
    case GetVaultNotifications =>
      Plain(VaultChecks([]), VaultPath([Literal("notification-configuration")]), HttpGet)
    case InitiateJob =>
      Plain(VaultChecks([]), VaultPath([Literal("jobs")]), HttpPost)
    case InitiateMultipartUpload =>
      Plain(VaultChecks([]), VaultPath([Literal("multipart-uploads")]), HttpPost)
    case InitiateVaultLock =>
      Plain(VaultChecks([]), VaultPath([Literal("lock-policy")]), HttpPost)
    case ListJobs =>
      Plain(VaultChecks([]), VaultPath([Literal("jobs")]), HttpGet)
    case ListMultipartUploads =>
      Plain(VaultChecks([]), VaultPath([Literal("multipart-uploads")]), HttpGet)
    case ListParts =>
      Plain(VaultChecks([UploadId]), VaultPath([Literal("multipart-uploads"), FromField(UploadId)]), HttpGet)
    case ListProvisionedCapacity =>
      Plain([AccountId], [FromField(AccountId), Literal("provisioned-capacity")], HttpGet)
    case ListTagsForVault =>
      Plain(VaultChecks([]), VaultPath([Literal("tags")]), HttpGet)
    case ListVaults =>
      Plain([AccountId], [FromField(AccountId), Literal("vaults")], HttpGet)
    case PurchaseProvisionedCapacity =>
      Plain([AccountId], [FromField(AccountId), Literal("provisioned-capacity")], HttpPost)
    case RemoveTagsFromVault =>
      Route(VaultChecks([]), VaultPath([Literal("tags")]), Some("?operation=remove"), HttpPost, Sigv4, Parsed)
    case SetDataRetrievalPolicy =>
      Plain([AccountId], [FromField(AccountId), Literal("policies"), Literal("data-retrieval")], HttpPut)
    case SetVaultAccessPolicy =>
      Plain(VaultChecks([]), VaultPath([Literal("access-policy")]), HttpPut)
    case SetVaultNotifications =>
      Plain(VaultChecks([]), VaultPath([Literal("notification-configuration")]), HttpPut)
    case UploadArchive =>
      Plain([VaultName, AccountId], VaultPath([Literal("archives")]), HttpPost)
    case UploadMultipartPart =>
      Plain(VaultChecks([UploadId]), VaultPath([Literal("multipart-uploads"), FromField(UploadId)]), HttpPut)
  }

  /** Every field the template reads is one the operation requires, so a
      request that passes the checks has all its path values set. */
  lemma TemplateFieldsAreRequired(op: Operation)
    ensures forall i :: 0 <= i < |RouteOf(op).template| && RouteOf(op).template[i].FromField? ==>
              RouteOf(op).template[i].field in RouteOf(op).required
  {
  }

  /** The checks run in order and stop at the first unset flag. */
  function FirstUnset(req: GlacierRequest, checks: seq<PathField>): (r: Option<PathField>)
    ensures r.None? <==> forall i :: 0 <= i < |checks| ==> IsSet(req, checks[i])
    ensures r.Some? ==> exists i :: 0 <= i < |checks| && checks[i] == r.value && !IsSet(req, checks[i])
                                  && forall j :: 0 <= j < i ==> IsSet(req, checks[j])
    decreases |checks|
  {
    if checks == [] then None
    else if !IsSet(req, checks[0]) then Some(checks[0])
    else
      var rest := FirstUnset(req, checks[1..]);
      assert forall i :: 1 <= i < |checks| ==> checks[i] == checks[1..][i - 1];
      rest
  }

  /** The path segments the template yields for a request: literals as
      written, request fields by their current value. */
  function Render(template: seq<Segment>, req: GlacierRequest): (path: seq<string>)
    ensures |path| == |template|
    ensures forall i :: 0 <= i < |template| ==> path[i] == SegmentValue(template[i], req)
    decreases |template|
  {
    if template == [] then [] else [SegmentValue(template[0], req)] + Render(template[1..], req)
  }

  function SegmentValue(s: Segment, req: GlacierRequest): string
  {
    match s
    case Literal(t) => t
    case FromField(f) => Field(req, f).value
  }

  /** The client state the operations read: the configured scheme and the
      base URI chosen by `init` or `OverrideEndpoint`. */
  datatype GlacierClient = GlacierClient(configScheme: string, uri: string)

  /** `init`, with the scheme name and the regional endpoint given as strings
      (their mappers are outside this model). */
  function Init(configScheme: string, endpointOverride: string, regionalEndpoint: string): (c: GlacierClient)
    ensures c.configScheme == configScheme
    ensures endpointOverride == "" ==> c.uri == configScheme + "://" + regionalEndpoint
    ensures endpointOverride != "" ==> c.uri == Client.OverrideEndpoint(configScheme, endpointOverride)
    ensures endpointOverride != "" ==> c == OverrideEndpoint(c, endpointOverride)
  {
    GlacierClient(configScheme, InitialUri(configScheme, endpointOverride, regionalEndpoint))
  }

  /** `OverrideEndpoint`: replaces the base URI by the endpoint rule and
      keeps the configured scheme. */
  function OverrideEndpoint(c: GlacierClient, endpoint: string): (c': GlacierClient)
    ensures c'.configScheme == c.configScheme
    ensures c'.uri == endpoint <==> HasScheme(endpoint)
    ensures c'.uri != endpoint ==> c'.uri == c.configScheme + "://" + endpoint
  {
    c.(uri := Client.OverrideEndpoint(c.configScheme, endpoint))
  }

  /** The synchronous body shared by every operation, for the route the
      operation fixes. */
  function Execute(c: GlacierClient, route: Route, req: GlacierRequest): (o: Outcome)
    ensures o.Refused? <==> exists i :: 0 <= i < |route.required| && !IsSet(req, route.required[i])
    ensures o.Refused? ==>
              exists i :: 0 <= i < |route.required|
                && !IsSet(req, route.required[i])
                && (forall j :: 0 <= j < i ==> IsSet(req, route.required[j]))
                && o.error.message == "Missing required field [" + FieldName(route.required[i]) + "]"
    ensures o.Refused? ==> o.error.kind == MissingParameter && o.error.exceptionName == "MISSING_PARAMETER"
                           && !o.error.retryable
    ensures o.Dispatched? ==>
              && o.dispatch.target.base == c.uri
              && |o.dispatch.target.path| == |route.template|
              && o.dispatch.target.path == Render(route.template, req)
              && o.dispatch.target.query == route.query
              && o.dispatch.verb == route.verb
              && o.dispatch.signer == route.signer
              && o.dispatch.response == route.response
              && o.dispatch.operationName.None?
  {
    match FirstUnset(req, route.required)
    case Some(f) => Refused(MissingParameterError(FieldName(f)))
    case None =>
      Dispatched(Dispatch(Target(c.uri, Render(route.template, req), route.query),
                          route.verb, route.signer, route.response, None))
  }

  /** What all 33 routes share: AccountId is always checked, and every path
      starts with the account ID followed by at least one more segment. */
  lemma RouteShape(op: Operation)
    ensures AccountId in RouteOf(op).required
    ensures |RouteOf(op).template| >= 2 && RouteOf(op).template[0] == FromField(AccountId)
  {
  }

  /** The synchronous body of `op` applied to `req`: nothing is dispatched
      without an account ID, and what is dispatched is addressed under it. */
  function Invoke(c: GlacierClient, op: Operation, req: GlacierRequest): (o: Outcome)
    ensures !IsSet(req, AccountId) ==> o.Refused?
    ensures o.Dispatched? ==> |o.dispatch.target.path| >= 2 && o.dispatch.target.path[0] == req.accountId.value
    ensures o.Dispatched? ==> o.dispatch.target.base == c.uri && o.dispatch.verb == RouteOf(op).verb
  {
    RouteShape(op);
    var route := RouteOf(op);
    var o := Execute(c, route, req);
    assert !IsSet(req, AccountId) ==> o.Refused? by {
      if !IsSet(req, AccountId) {
        var i :| 0 <= i < |route.required| && route.required[i] == AccountId;
      }
    }
    assert o.Dispatched? ==> o.dispatch.target.path == Render(route.template, req);
    o
  }

  /** GetJobOutput is the one operation that takes the raw response stream,
      and the one that passes no signer argument. */
  lemma OnlyGetJobOutputIsUnparsed(op: Operation)
    ensures RouteOf(op).response == Unparsed <==> op == GetJobOutput
    ensures RouteOf(op).signer == DefaultSigner <==> op == GetJobOutput
  {
  }

  /** The GetJobOutput path, rendered. */
  lemma GetJobOutputRoute(c: GlacierClient, req: GlacierRequest)
    requires IsSet(req, AccountId) && IsSet(req, VaultName) && IsSet(req, JobId)
    ensures Invoke(c, GetJobOutput, req)
         == Dispatched(Dispatch(Target(c.uri, [req.accountId.value, "vaults", req.vaultName.value, "jobs", req.jobId.value, "output"], None),
                                HttpGet, DefaultSigner, Unparsed, None))
  {
    var route := RouteOf(GetJobOutput);
    assert route.required == [AccountId, VaultName, JobId];
    assert route.template == [FromField(AccountId), Literal("vaults"), FromField(VaultName), Literal("jobs"), FromField(JobId), Literal("output")];
    DispatchWhenAllSet(c, route, req);
    assert Render(route.template, req) == [req.accountId.value, "vaults", req.vaultName.value, "jobs", req.jobId.value, "output"];
  }

  /** Validation reads flags only: requests with the same flags are refused
      (with the same error) or dispatched alike, whatever their values. */
  lemma {:induction false} OnlyFlagsDecideRefusal(c: GlacierClient, route: Route, r1: GlacierRequest, r2: GlacierRequest)
    requires SameFlags(r1, r2)
    ensures Execute(c, route, r1).Refused? == Execute(c, route, r2).Refused?
    ensures Execute(c, route, r1).Refused? ==> Execute(c, route, r1) == Execute(c, route, r2)
  {
    FirstUnsetOnlyReadsFlags(r1, r2, route.required);
  }

  lemma {:induction false} FirstUnsetOnlyReadsFlags(r1: GlacierRequest, r2: GlacierRequest, checks: seq<PathField>)
    requires SameFlags(r1, r2)
    ensures FirstUnset(r1, checks) == FirstUnset(r2, checks)
    decreases |checks|
  {
    if checks != [] {
      assert IsSet(r1, checks[0]) == IsSet(r2, checks[0]);
      FirstUnsetOnlyReadsFlags(r1, r2, checks[1..]);
    }
  }

  /** An explicitly set empty AccountId passes the check. */
  lemma EmptyAccountIdPasses(c: GlacierClient)
    ensures Invoke(c, ListVaults, GlacierRequest(Tracked("", true), Unset(""), Unset(""), Unset(""), Unset(""), Unset("")))
         == Dispatched(Dispatch(Target(c.uri, ["", "vaults"], None), HttpGet, Sigv4, Parsed, None))
  {
  }

  /** UploadArchive checks VaultName first, so with both unset it names VaultName. */
  lemma UploadArchiveNamesVaultNameFirst(c: GlacierClient, req: GlacierRequest)
    requires !IsSet(req, AccountId) && !IsSet(req, VaultName)
    ensures Invoke(c, UploadArchive, req) == Refused(MissingParameterError("VaultName"))
  {
  }

  /** Every other operation checks AccountId first. */
  lemma OtherOperationsNameAccountIdFirst(c: GlacierClient, op: Operation, req: GlacierRequest)
    requires op != UploadArchive
    requires !IsSet(req, AccountId)
    ensures Invoke(c, op, req) == Refused(MissingParameterError("AccountId"))
  {
  }

  /** Once every required flag is set, the body dispatches the rendered template. */
  lemma {:induction false} DispatchWhenAllSet(c: GlacierClient, route: Route, req: GlacierRequest)
    requires forall f :: f in route.required ==> IsSet(req, f)
    ensures Execute(c, route, req)
         == Dispatched(Dispatch(Target(c.uri, Render(route.template, req), route.query),
                                route.verb, route.signer, route.response, None))
  {
    var checks := route.required;
    assert forall i :: 0 <= i < |checks| ==> IsSet(req, checks[i]) by {
      forall i | 0 <= i < |checks|
        ensures IsSet(req, checks[i])
      {
        assert checks[i] in checks;
      }
    }
  }

  /** Rendering `{AccountId}` followed by literal segments. */
  lemma RenderAccountPath(req: GlacierRequest, texts: seq<string>)
    ensures Render([FromField(AccountId)] + seq(|texts|, i requires 0 <= i < |texts| => Literal(texts[i])), req)
         == [req.accountId.value] + texts
  {
    var t := [FromField(AccountId)] + seq(|texts|, i requires 0 <= i < |texts| => Literal(texts[i]));
    var p := Render(t, req);
    assert forall i :: 1 <= i < |p| ==> p[i] == SegmentValue(t[i], req) == texts[i - 1];
  }

  /** An account-level operation: AccountId is its only required field and
      the path is the account ID followed by the given literals. */
  lemma {:induction false} AccountRoute(c: GlacierClient, op: Operation, texts: seq<string>, verb: HttpMethod, req: GlacierRequest)
    requires RouteOf(op) == Plain([AccountId], [FromField(AccountId)] + seq(|texts|, i requires 0 <= i < |texts| => Literal(texts[i])), verb)
    requires IsSet(req, AccountId)
    ensures Invoke(c, op, req) == Dispatched(Dispatch(Target(c.uri, [req.accountId.value] + texts, None), verb, Sigv4, Parsed, None))
  {
    DispatchWhenAllSet(c, RouteOf(op), req);
    RenderAccountPath(req, texts);
  }

  lemma GetDataRetrievalPolicyRoute(c: GlacierClient, req: GlacierRequest)
    requires IsSet(req, AccountId)
    ensures Invoke(c, GetDataRetrievalPolicy, req)
         == Dispatched(Dispatch(Target(c.uri, [req.accountId.value, "policies", "data-retrieval"], None), HttpGet, Sigv4, Parsed, None))
  {
    var texts := ["policies", "data-retrieval"];
    assert seq(|texts|, i requires 0 <= i < |texts| => Literal(texts[i])) == [Literal("policies"), Literal("data-retrieval")];
    AccountRoute(c, GetDataRetrievalPolicy, texts, HttpGet, req);
  }

  lemma SetDataRetrievalPolicyRoute(c: GlacierClient, req: GlacierRequest)
    requires IsSet(req, AccountId)
    ensures Invoke(c, SetDataRetrievalPolicy, req)
         == Dispatched(Dispatch(Target(c.uri, [req.accountId.value, "policies", "data-retrieval"], None), HttpPut, Sigv4, Parsed, None))
  {
    var texts := ["policies", "data-retrieval"];
    assert seq(|texts|, i requires 0 <= i < |texts| => Literal(texts[i])) == [Literal("policies"), Literal("data-retrieval")];
    AccountRoute(c, SetDataRetrievalPolicy, texts, HttpPut, req);
  }

  lemma ListVaultsRoute(c: GlacierClient, req: GlacierRequest)
    requires IsSet(req, AccountId)
    ensures Invoke(c, ListVaults, req)
         == Dispatched(Dispatch(Target(c.uri, [req.accountId.value, "vaults"], None), HttpGet, Sigv4, Parsed, None))
  {
    var texts := ["vaults"];
    assert seq(|texts|, i requires 0 <= i < |texts| => Literal(texts[i])) == [Literal("vaults")];
    AccountRoute(c, ListVaults, texts, HttpGet, req);
  }

  lemma ListProvisionedCapacityRoute(c: GlacierClient, req: GlacierRequest)
    requires IsSet(req, AccountId)
    ensures Invoke(c, ListProvisionedCapacity, req)
         == Dispatched(Dispatch(Target(c.uri, [req.accountId.value, "provisioned-capacity"], None), HttpGet, Sigv4, Parsed, None))
  {
    var texts := ["provisioned-capacity"];
    assert seq(|texts|, i requires 0 <= i < |texts| => Literal(texts[i])) == [Literal("provisioned-capacity")];
    AccountRoute(c, ListProvisionedCapacity, texts, HttpGet, req);
  }

  lemma PurchaseProvisionedCapacityRoute(c: GlacierClient, req: GlacierRequest)
    requires IsSet(req, AccountId)
    ensures Invoke(c, PurchaseProvisionedCapacity, req)
         == Dispatched(Dispatch(Target(c.uri, [req.accountId.value, "provisioned-capacity"], None), HttpPost, Sigv4, Parsed, None))
  {
    var texts := ["provisioned-capacity"];
    assert seq(|texts|, i requires 0 <= i < |texts| => Literal(texts[i])) == [Literal("provisioned-capacity")];
    AccountRoute(c, PurchaseProvisionedCapacity, texts, HttpPost, req);
  }

  /** Two routes that differ at most in the verb and the query string refuse
      alike, and otherwise dispatch the same path. */
  lemma {:induction false} SameChecksAndTemplate(c: GlacierClient, r1: Route, r2: Route, req: GlacierRequest)
    requires r1.required == r2.required && r1.template == r2.template
    requires r1.signer == r2.signer && r1.response == r2.response
    ensures Execute(c, r1, req).Refused? == Execute(c, r2, req).Refused?
    ensures Execute(c, r1, req).Refused? ==> Execute(c, r1, req) == Execute(c, r2, req)
    ensures Execute(c, r1, req).Dispatched? ==>
              Execute(c, r2, req) == Dispatched(Execute(c, r1, req).dispatch.(
                target := Execute(c, r1, req).dispatch.target.(query := r2.query),
                verb := r2.verb))
  {
  }

  predicate MultipartUploadOperation(op: Operation)
  {
    op == AbortMultipartUpload || op == CompleteMultipartUpload || op == ListParts || op == UploadMultipartPart
  }

  /** The four multipart-upload operations share checks and path and differ
      only in the verb. */
  lemma MultipartUploadRoutes(op: Operation)
    requires MultipartUploadOperation(op)
    ensures RouteOf(op).(verb := HttpGet) == RouteOf(ListParts)
    ensures RouteOf(op).verb
         == match op
            case AbortMultipartUpload => HttpDelete
            case CompleteMultipartUpload => HttpPost
            case ListParts => HttpGet
            case _ => HttpPut
  {
  }

  /** The shared multipart-upload path, rendered. */
  lemma ListPartsRoute(c: GlacierClient, req: GlacierRequest)
    requires IsSet(req, AccountId) && IsSet(req, VaultName) && IsSet(req, UploadId)
    ensures Invoke(c, ListParts, req)
         == Dispatched(Dispatch(Target(c.uri, [req.accountId.value, "vaults", req.vaultName.value, "multipart-uploads", req.uploadId.value], None),
                                HttpGet, Sigv4, Parsed, None))
  {
    var route := RouteOf(ListParts);
    assert route.required == [AccountId, VaultName, UploadId];
    assert route.template == [FromField(AccountId), Literal("vaults"), FromField(VaultName), Literal("multipart-uploads"), FromField(UploadId)];
    DispatchWhenAllSet(c, route, req);
    assert Render(route.template, req) == [req.accountId.value, "vaults", req.vaultName.value, "multipart-uploads", req.uploadId.value];
  }

  /** AddTagsToVault and RemoveTagsFromVault share checks, path and verb and
      differ only in the query string. */
  lemma TagRoutes()
    ensures RouteOf(AddTagsToVault).(query := None) == RouteOf(RemoveTagsFromVault).(query := None)
    ensures RouteOf(AddTagsToVault).verb == HttpPost
    ensures RouteOf(AddTagsToVault).query == Some("?operation=add")
    ensures RouteOf(RemoveTagsFromVault).query == Some("?operation=remove")
    ensures RouteOf(AddTagsToVault).template == VaultPath([Literal("tags")])
  {
  }

  /** A DELETE of vault "x" in account "-". */
  lemma DeleteVaultScenario(c: GlacierClient)
    ensures Invoke(c, DeleteVault, GlacierRequest(Tracked("-", true), Tracked("x", true), Unset(""), Unset(""), Unset(""), Unset("")))
         == Dispatched(Dispatch(Target(c.uri, ["-", "vaults", "x"], None), HttpDelete, Sigv4, Parsed, None))
  {
  }

  /** A DeleteVault whose VaultName was never set names VaultName and dispatches nothing. */
  lemma DeleteVaultWithoutVaultName(c: GlacierClient, account: string)
    ensures Invoke(c, DeleteVault, GlacierRequest(Tracked(account, true), Unset(""), Unset(""), Unset(""), Unset(""), Unset("")))
         == Refused(AwsError(MissingParameter, "MISSING_PARAMETER", "Missing required field [VaultName]", false))
  {
  }
}
