/**
 What the generated service clients share: the endpoint rule applied by
 `init` and `OverrideEndpoint`, the local MISSING_PARAMETER error, and the
 opaque description of a request handed to the (external) dispatch routine.
 */
module Client {

  datatype Option<T> = None | Some(value: T)

  /** The HTTP verbs the clients use. */
  datatype HttpMethod = HttpGet | HttpPut | HttpPost | HttpDelete

  /** `Aws::Auth::SIGV4_SIGNER`, or no signer argument at all (the dispatch
      routine's default). */
  datatype Signer = Sigv4 | DefaultSigner

  /** `MakeRequest` decodes the response as JSON; `MakeRequestWithUnparsedResponse`
      hands the raw stream back. */
  datatype ResponseKind = Parsed | Unparsed

  /** The URI handed to the dispatch routine: the client's base URI, the
      path segments added to it, and the query string if one was set. */
  datatype Target = Target(base: string, path: seq<string>, query: Option<string>)

  /** One call of the external dispatch routine. `operationName` is present
      only when the client passes it explicitly; otherwise the routine takes
      it from the request object. */
  datatype Dispatch = Dispatch(
    target: Target,
    verb: HttpMethod,
    signer: Signer,
    response: ResponseKind,
    operationName: Option<string>)

  /** The one error kind produced before anything is sent. */
  datatype ErrorKind = MissingParameter

  /** `AWSError<Errors>(kind, exceptionName, message, retryable)`. */
  datatype AwsError = AwsError(kind: ErrorKind, exceptionName: string, message: string, retryable: bool)

  /** The result of the synchronous operation body: either the request was
      handed to the dispatch routine, or it was refused locally. */
  datatype Outcome = Dispatched(dispatch: Dispatch) | Refused(error: AwsError)

  /** The error returned for a required field whose flag is not set. */
  function MissingParameterError(fieldName: string): AwsError
  {
    AwsError(MissingParameter, "MISSING_PARAMETER", "Missing required field [" + fieldName + "]", false)
  }

  /** `s.compare(0, |p|, p) == 0`: the first |p| characters of s are p. */
  predicate StartsWith(s: string, p: string)
  {
    |p| <= |s| && s[..|p|] == p
  }

  predicate EndsWith(s: string, p: string)
  {
    |p| <= |s| && s[|s| - |p|..] == p
  }

  /** The endpoint already names its scheme (the check is case-sensitive). */
  predicate HasScheme(endpoint: string)
  {
    StartsWith(endpoint, "http://") || StartsWith(endpoint, "https://")
  }

  /** `OverrideEndpoint`: an endpoint that names its scheme is kept as given;
      any other is prefixed with the configured scheme and "://". */
  function OverrideEndpoint(configScheme: string, endpoint: string): (uri: string)
    ensures uri == endpoint <==> HasScheme(endpoint)
    ensures uri != endpoint ==> StartsWith(uri, configScheme + "://")
    ensures !HasScheme(endpoint) ==> uri == configScheme + "://" + endpoint
    ensures EndsWith(uri, endpoint)
  {
    if HasScheme(endpoint) then endpoint else configScheme + "://" + endpoint
  }

  /** `init`: the override is used if and only if it is non-empty; otherwise
      the configured scheme is joined to the regional endpoint. */
  function InitialUri(configScheme: string, endpointOverride: string, regionalEndpoint: string): (uri: string)
    ensures endpointOverride == "" ==> uri == configScheme + "://" + regionalEndpoint
    ensures endpointOverride != "" ==> uri == OverrideEndpoint(configScheme, endpointOverride)
    ensures EndsWith(uri, if endpointOverride == "" then regionalEndpoint else endpointOverride)
  {
    if endpointOverride == "" then configScheme + "://" + regionalEndpoint
    else OverrideEndpoint(configScheme, endpointOverride)
  }

  /** With the scheme names the configuration can produce, overriding with an
      endpoint that was already resolved changes nothing. */
  lemma OverrideEndpointIdempotent(configScheme: string, endpoint: string)
    requires configScheme == "http" || configScheme == "https"
    ensures OverrideEndpoint(configScheme, OverrideEndpoint(configScheme, endpoint))
         == OverrideEndpoint(configScheme, endpoint)
  {
    var uri := OverrideEndpoint(configScheme, endpoint);
    if !HasScheme(endpoint) {
      if configScheme == "http" {
        assert uri[..7] == "http://";
      } else {
        assert uri[..8] == "https://";
      }
    }
  }

  /** The scheme test is case-sensitive: an endpoint written with an
      upper-case scheme is not recognised and receives a second one. */
  lemma UpperCaseSchemeIsPrefixed(configScheme: string, host: string)
    ensures OverrideEndpoint(configScheme, "HTTPS://" + host) == configScheme + "://HTTPS://" + host
    ensures OverrideEndpoint(configScheme, "HTTP://" + host) == configScheme + "://HTTP://" + host
  {
    var e1 := "HTTPS://" + host;
    var e2 := "HTTP://" + host;
    assert e1[0] == 'H' && e2[0] == 'H';
    assert !StartsWith(e1, "http://") && !StartsWith(e1, "https://");
    assert !StartsWith(e2, "http://") && !StartsWith(e2, "https://");
    assert configScheme + "://" + e1 == configScheme + "://HTTPS://" + host;
    assert configScheme + "://" + e2 == configScheme + "://HTTP://" + host;
  }
}
