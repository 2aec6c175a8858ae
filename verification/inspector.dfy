/**
 The synchronous operation bodies of the Inspector client. None of them checks
 required fields: every request-taking operation POSTs to the base URI with
 SigV4, and `DescribeCrossAccountAccessRole` POSTs to the base URI followed
 by "/" under its own operation name.
 */
module Inspector {
  import opened Client

  /** The request-taking synchronous operations of the client. */
  datatype Operation =
    | AddAttributesToFindings | CreateAssessmentTarget | CreateAssessmentTemplate
    | CreateExclusionsPreview | CreateResourceGroup | DeleteAssessmentRun
    | DeleteAssessmentTarget | DeleteAssessmentTemplate | DescribeAssessmentRuns
    | DescribeAssessmentTargets | DescribeAssessmentTemplates | DescribeExclusions
    | DescribeFindings | DescribeResourceGroups | DescribeRulesPackages
    | GetAssessmentReport | GetExclusionsPreview | GetTelemetryMetadata
    | ListAssessmentRunAgents | ListAssessmentRuns | ListAssessmentTargets
    | ListAssessmentTemplates | ListEventSubscriptions | ListExclusions
    | ListFindings | ListRulesPackages | ListTagsForResource | PreviewAgents
    | RegisterCrossAccountAccessRole | RemoveAttributesFromFindings | SetTagsForResource
    | StartAssessmentRun | StopAssessmentRun | SubscribeToEvent
    | UnsubscribeFromEvent | UpdateAssessmentTarget

  /** The client state the operations read. */
  datatype InspectorClient = InspectorClient(configScheme: string, uri: string)

  /** `init`, with the scheme name and the regional endpoint given as strings. */
  function Init(configScheme: string, endpointOverride: string, regionalEndpoint: string): (c: InspectorClient)
    ensures c.configScheme == configScheme
    ensures endpointOverride == "" ==> c.uri == configScheme + "://" + regionalEndpoint
    ensures endpointOverride != "" ==> c.uri == Client.OverrideEndpoint(configScheme, endpointOverride)
    ensures endpointOverride != "" ==> c == OverrideEndpoint(c, endpointOverride)
  {
    InspectorClient(configScheme, InitialUri(configScheme, endpointOverride, regionalEndpoint))
  }

  /** `OverrideEndpoint`: the same endpoint rule as every generated client. */
  function OverrideEndpoint(c: InspectorClient, endpoint: string): (c': InspectorClient)
    ensures c'.configScheme == c.configScheme
    ensures c'.uri == endpoint <==> HasScheme(endpoint)
    ensures c'.uri != endpoint ==> c'.uri == c.configScheme + "://" + endpoint
  {
    c.(uri := Client.OverrideEndpoint(c.configScheme, endpoint))
  }

  /** The synchronous body of a request-taking operation. The request object
      contributes only the serialised body, which the dispatch routine
      produces, so the outcome does not depend on it. */
  function Invoke(c: InspectorClient, op: Operation): (o: Outcome)
    ensures o.Dispatched?
    ensures o.dispatch.target == Target(c.uri, [], None)
    ensures o.dispatch.verb == HttpPost && o.dispatch.signer == Sigv4
    ensures o.dispatch.response == Parsed && o.dispatch.operationName.None?
  {
    Dispatched(Dispatch(Target(c.uri, [], None), HttpPost, Sigv4, Parsed, None))
  }

  /** `DescribeCrossAccountAccessRole` takes no request: it targets the base
      URI followed by "/" and names the operation itself. */
  function DescribeCrossAccountAccessRole(c: InspectorClient): (o: Outcome)
    ensures o.Dispatched?
    ensures o.dispatch.target.base == c.uri + "/" && o.dispatch.target.path == []
    ensures o.dispatch.verb == HttpPost && o.dispatch.signer == Sigv4
    ensures o.dispatch.operationName == Some("DescribeCrossAccountAccessRole")
  {
    Dispatched(Dispatch(Target(c.uri + "/", [], None), HttpPost, Sigv4, Parsed, Some("DescribeCrossAccountAccessRole")))
  }

  /** No Inspector operation refuses a call locally, so MISSING_PARAMETER is
      never produced by this client, and all request-taking operations
      target the same URI. */
  lemma NeverRefusedLocally(c: InspectorClient, op1: Operation, op2: Operation)
    ensures !Invoke(c, op1).Refused? && !DescribeCrossAccountAccessRole(c).Refused?
    ensures Invoke(c, op1).dispatch.target == Invoke(c, op2).dispatch.target
    ensures Invoke(c, op1).dispatch.target.base != DescribeCrossAccountAccessRole(c).dispatch.target.base
  {
    assert |c.uri + "/"| != |c.uri|;
  }
}
