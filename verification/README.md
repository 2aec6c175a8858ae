# Presence-tracked models and request building in a generated AWS SDK for C++

This project models, in Dafny, the parts of the generated AWS SDK for C++ whose behaviour is pure and sequential:

- **Client endpoint rule and request building.**
  - The Glacier and Inspector clients choose their base URI in `init` and `OverrideEndpoint`. An endpoint that already names `http://` or `https://` is kept as given. Any other endpoint is prefixed with the configured scheme and `://`.
  - Every Glacier operation checks the "has been set" flags of its required fields in a fixed order. The first unset field gives a non-retryable `MISSING_PARAMETER` error that names it. Otherwise the operation builds a path from a fixed template of literals and request fields, with a fixed verb and an optional fixed query string.
  - Inspector operations do no local checking. They always POST to the base URI.
- **Presence-tracked records.** Every field of a generated model class carries a `HasBeenSet` flag.
  - `Set<F>` and `With<F>` store a value and raise only that field's flag.
  - `Add<F>` on a list appends to the end.
  - `Add<F>` on a map uses `emplace`, which never overwrites a key that is already present but still raises the flag.
- **Presence-aware JSON readers and writers.**
  - Athena's `ResultConfiguration` writes a key exactly when its flag is set. When reading, it assigns a field exactly when its key exists.
  - Three result readers (DataSync, Backup Storage, Proton) each read a single key.

Layout, one module per component:

- `presence.dfy` (`Presence`): the `Tracked<T>` value/flag pair, with set, append and emplace, and the laws for repeated adds.
- `client.dfy` (`Client`): the endpoint rule, the `MISSING_PARAMETER` error and the description of a dispatched request.
- `glacier.dfy` (`Glacier`): the request's six path fields and the table of all 33 operations (required fields in check order, path template, query, verb, signer, response kind). Also the validator, the path renderer and the client.
- `inspector.dfy` (`Inspector`): the Inspector client.
- `json.dfy` (`Json`): a JSON object as a map from key to value, the accessors the readers use, and the member-wise merge a nested model performs when a JSON view is assigned to it.
- `athena.dfy`, `datasync.dfy`, `backupstorage.dfy`, `proton.dfy`: the JSON readers and the writer.
- One file per model header: `alexaforbusiness.dfy`, `iot.dfy`, `glue.dfy`, `ssm.dfy`, `neptune.dfy`, `acm.dfy`, `cloudfront.dfy`, `servicediscovery.dfy`, `workspacesweb.dfy`, `elastictranscoder.dfy`, `workspaces.dfy`. Each module is named after the SDK namespace.

Modelling choices:

- A call that returns `*this` (`With<F>`, `Add<F>`) is a function from the old object to the new one.
- A Glacier dispatch is the pair of a target (base URI, path segments, query) and the verb, signer and response kind handed to the external request routine.
- In a Glacier path, each literal such as `"/vaults/"` stands for the single segment `vaults`.

## Model

| member | source | states |
|---|---|---|
| `Presence.Emplace` | aws-cpp-sdk-glue/include/aws/glue/model/JDBCConnectorTarget.h:336-366 | `emplace` on a map member: keys grow by exactly k, existing entries keep their values, a new k maps to v, and the flag is raised |
| `Presence.EmplaceIsLeftBiasedUnion` | aws-cpp-sdk-ssm/include/aws/ssm/model/AssociationOverview.h:178-192 | emplace equals the union `map[k := v] + m` in which entries already present win |
| `Presence.EmplaceKeepsFirstValue` | aws-cpp-sdk-ssm/include/aws/ssm/model/AssociationOverview.h:178-192 | a second emplace of the same key keeps the first value |
| `Presence.AddAllAppends` | aws-cpp-sdk-alexaforbusiness/include/aws/alexaforbusiness/model/NetworkProfile.h:475-489 | repeated `push_back` adds append in call order; the flag is unchanged only when nothing was added |
| `Presence.EmplaceAllIsFirstWins` | aws-cpp-sdk-glue/include/aws/glue/model/JDBCConnectorTarget.h:336-366 | repeated emplaces keep every present entry and, for a new key, the value of its first occurrence |
| `Client.OverrideEndpoint` | aws-cpp-sdk-glacier/source/GlacierClient.cpp:124-134 | the endpoint is kept if and only if it starts with `http://` or `https://` (case-sensitive); otherwise the result is scheme + `://` + endpoint; the endpoint is always a suffix |
| `Client.InitialUri` | aws-cpp-sdk-glacier/source/GlacierClient.cpp:110-122 | an empty override gives scheme + `://` + regional endpoint; a non-empty one goes through the override rule |
| `Client.OverrideEndpointIdempotent` | aws-cpp-sdk-glacier/source/GlacierClient.cpp:124-134 | for scheme `http` or `https`, overriding with an already-resolved URI changes nothing |
| `Client.UpperCaseSchemeIsPrefixed` | aws-cpp-sdk-glacier/source/GlacierClient.cpp:124-134 | for every configured scheme and host, `HTTPS://host` and `HTTP://host` are not recognised as having a scheme and receive the configured scheme in front |
| `Glacier.Init` | aws-cpp-sdk-glacier/source/GlacierClient.cpp:110-122 | the scheme is kept; an empty override gives scheme + `://` + regional endpoint, a non-empty one gives the override rule applied to it |
| `Glacier.OverrideEndpoint` | aws-cpp-sdk-glacier/source/GlacierClient.cpp:124-134 | the base URI follows the endpoint rule; the configured scheme is unchanged |
| `Glacier.FirstUnset` | aws-cpp-sdk-glacier/source/GlacierClient.cpp:136-152 | none if and only if every checked flag is set; otherwise the first unset field in check order |
| `Glacier.Render` | aws-cpp-sdk-glacier/source/GlacierClient.cpp:153-159 | one path segment per template entry: literals as written, request fields by value |
| `Glacier.Execute` | aws-cpp-sdk-glacier/source/GlacierClient.cpp:136-160 | refused if and only if some required flag is unset, naming the first one with kind/code `MISSING_PARAMETER` and retryable false; otherwise dispatched to the base URI with the rendered path, the route's query and verb, its signer and its response kind |
| `Glacier.Invoke` | aws-cpp-sdk-glacier/source/GlacierClient.cpp:136-1323 | no operation dispatches without AccountId set; every dispatched path starts with the account ID, has at least two segments, uses the base URI and the operation's verb |
| `Glacier.RouteShape` | aws-cpp-sdk-glacier/source/GlacierClient.cpp:136-1323 | every route checks AccountId and its template starts with the account ID |
| `Glacier.TemplateFieldsAreRequired` | aws-cpp-sdk-glacier/source/GlacierClient.cpp:136-1323 | every request field read into a path is one the operation checks first |
| `Glacier.OnlyFlagsDecideRefusal` | aws-cpp-sdk-glacier/source/GlacierClient.cpp:136-152 | requests with the same flags are refused alike with the same error, whatever the values |
| `Glacier.FirstUnsetOnlyReadsFlags` | aws-cpp-sdk-glacier/source/GlacierClient.cpp:136-152 | the first-unset search depends only on the flags |
| `Glacier.EmptyAccountIdPasses` | aws-cpp-sdk-glacier/source/GlacierClient.cpp:1065-1076 | an explicitly set empty AccountId passes ListVaults and yields path `["", "vaults"]` |
| `Glacier.UploadArchiveNamesVaultNameFirst` | aws-cpp-sdk-glacier/source/GlacierClient.cpp:1263-1274 | with both unset, UploadArchive names VaultName |
| `Glacier.OtherOperationsNameAccountIdFirst` | aws-cpp-sdk-glacier/source/GlacierClient.cpp:136-152 | every other operation with AccountId unset names AccountId |
| `Glacier.DispatchWhenAllSet` | aws-cpp-sdk-glacier/source/GlacierClient.cpp:153-159 | with every required flag set the rendered template is dispatched |
| `Glacier.RenderAccountPath` | aws-cpp-sdk-glacier/source/GlacierClient.cpp:1065-1076 | rendering the account ID followed by literals gives those strings after the account ID |
| `Glacier.AccountRoute` | aws-cpp-sdk-glacier/source/GlacierClient.cpp:598-609 | an account-level route dispatches the account ID followed by its literals |
| `Glacier.GetDataRetrievalPolicyRoute` | aws-cpp-sdk-glacier/source/GlacierClient.cpp:598-609 | GET `{AccountId}/policies/data-retrieval` |
| `Glacier.SetDataRetrievalPolicyRoute` | aws-cpp-sdk-glacier/source/GlacierClient.cpp:1162-1173 | PUT `{AccountId}/policies/data-retrieval` |
| `Glacier.ListVaultsRoute` | aws-cpp-sdk-glacier/source/GlacierClient.cpp:1065-1076 | GET `{AccountId}/vaults` |
| `Glacier.ListProvisionedCapacityRoute` | aws-cpp-sdk-glacier/source/GlacierClient.cpp:1000-1011 | GET `{AccountId}/provisioned-capacity` |
| `Glacier.PurchaseProvisionedCapacityRoute` | aws-cpp-sdk-glacier/source/GlacierClient.cpp:1094-1105 | POST `{AccountId}/provisioned-capacity` |
| `Glacier.SameChecksAndTemplate` | aws-cpp-sdk-glacier/source/GlacierClient.cpp:214-235 | routes that differ only in verb and query refuse alike and otherwise dispatch the same path |
| `Glacier.MultipartUploadRoutes` | aws-cpp-sdk-glacier/source/GlacierClient.cpp:958-982 | Abort/Complete/UploadMultipartPart share ListParts' checks and path; verbs DELETE, POST, GET, PUT |
| `Glacier.ListPartsRoute` | aws-cpp-sdk-glacier/source/GlacierClient.cpp:958-982 | GET `{AccountId}/vaults/{VaultName}/multipart-uploads/{UploadId}` |
| `Glacier.TagRoutes` | aws-cpp-sdk-glacier/source/GlacierClient.cpp:214-235 | AddTagsToVault and RemoveTagsFromVault have the same checks, `.../tags` path and POST; queries `?operation=add` and `?operation=remove` |
| `Glacier.DeleteVaultScenario` | aws-cpp-sdk-glacier/source/GlacierClient.cpp:414-431 | DeleteVault for account `-` and vault `x` is DELETE `-/vaults/x` |
| `Glacier.DeleteVaultWithoutVaultName` | aws-cpp-sdk-glacier/source/GlacierClient.cpp:414-431 | DeleteVault without VaultName is refused with `Missing required field [VaultName]` |
| `Glacier.OnlyGetJobOutputIsUnparsed` | aws-cpp-sdk-glacier/source/GlacierClient.cpp:627-652 | GetJobOutput is exactly the operation with an unparsed response and no explicit signer |
| `Glacier.GetJobOutputRoute` | aws-cpp-sdk-glacier/source/GlacierClient.cpp:627-652 | GET `{AccountId}/vaults/{VaultName}/jobs/{JobId}/output`, unparsed |
| `Inspector.Init` | aws-cpp-sdk-inspector/source/InspectorClient.cpp:113-125 | an empty override gives scheme + `://` + regional endpoint, a non-empty one gives the override rule applied to it |
| `Inspector.OverrideEndpoint` | aws-cpp-sdk-inspector/source/InspectorClient.cpp:127-137 | the same endpoint rule as Glacier |
| `Inspector.Invoke` | aws-cpp-sdk-inspector/source/InspectorClient.cpp:139-143 | every request-taking operation is dispatched as POST with SigV4 to the base URI with no path segments |
| `Inspector.DescribeCrossAccountAccessRole` | aws-cpp-sdk-inspector/source/InspectorClient.cpp:381-386 | POST with SigV4 to the base URI followed by `/`, with operation name `DescribeCrossAccountAccessRole` |
| `Inspector.NeverRefusedLocally` | aws-cpp-sdk-inspector/source/InspectorClient.cpp:139-936 | no operation is refused locally; all request-taking operations share one target, distinct from DescribeCrossAccountAccessRole's |
| `Json.Present` | aws-cpp-sdk-athena/source/model/ResultConfiguration.cpp:36-60 | a member is kept exactly when `ValueExists` holds for it, with its value |
| `Json.Merge` | aws-cpp-sdk-athena/source/model/ResultConfiguration.cpp:36-60 | the nested `operator=(JsonView)`: every existing incoming member is assigned, every other member keeps its prior presence and value |
| `Json.MergeIntoEmpty` | aws-cpp-sdk-athena/source/model/ResultConfiguration.cpp:28-34 | merging into a default nested object keeps exactly the existing incoming members |
| `Json.MergeOwnMembers` | aws-cpp-sdk-athena/source/model/ResultConfiguration.cpp:36-85 | merging a nested object's own serialisation back into it changes nothing |
| `Json.MergeIdempotent` | aws-cpp-sdk-athena/source/model/ResultConfiguration.cpp:36-60 | merging the same incoming object twice equals merging it once |
| `Json.MergeEqualIff` | aws-cpp-sdk-athena/source/model/ResultConfiguration.cpp:36-60 | two prior nested objects end up equal if and only if they agreed on every member the incoming object does not assign |
| `Athena.Default` | aws-cpp-sdk-athena/source/model/ResultConfiguration.cpp:21-26 | all three flags false |
| `Athena.FromJson` | aws-cpp-sdk-athena/source/model/ResultConfiguration.cpp:28-34 | each flag is raised exactly when its key exists in the payload; each field then holds the value read under its key (the existing members of the nested object), and its default otherwise |
| `Athena.Assign` | aws-cpp-sdk-athena/source/model/ResultConfiguration.cpp:36-60 | a present key assigns its field and raises its flag, the nested configuration by merging the incoming members into it; an absent key leaves value and flag untouched |
| `Athena.Jsonize` | aws-cpp-sdk-athena/source/model/ResultConfiguration.cpp:62-85 | each key is emitted if and only if its flag is set; no other key and no null |
| `Athena.JsonizeDefaultIsEmpty` | aws-cpp-sdk-athena/source/model/ResultConfiguration.cpp:21-85 | a default-constructed object serialises to `{}` |
| `Athena.AssignJsonizeIsIdentity` | aws-cpp-sdk-athena/source/model/ResultConfiguration.cpp:36-85 | assigning an object's own serialisation to it reproduces it exactly |
| `Athena.FromJsonJsonizeRoundTrip` | aws-cpp-sdk-athena/source/model/ResultConfiguration.cpp:28-85 | constructing from `Jsonize(x)` gives x's flags, x's values for set fields, defaults for the rest |
| `Athena.JsonizeFromJsonRoundTrip` | aws-cpp-sdk-athena/source/model/ResultConfiguration.cpp:28-85 | for a well-kinded payload, serialising what was read gives back exactly its three known keys, minus null members of the nested object |
| `Athena.AssignIdempotent` | aws-cpp-sdk-athena/source/model/ResultConfiguration.cpp:36-60 | assigning the same payload twice equals assigning it once |
| `Athena.AssignReadsOnlyKnownKeys` | aws-cpp-sdk-athena/source/model/ResultConfiguration.cpp:36-60 | payloads that agree on the three keys give the same object |
| `DataSync.Default` | aws-cpp-sdk-datasync/source/model/CreateLocationFsxOntapResult.cpp:19-21 | the default object holds an empty LocationArn |
| `DataSync.FromResult` | aws-cpp-sdk-datasync/source/model/CreateLocationFsxOntapResult.cpp:23-26 | construction from a result is default construction followed by `operator=`: default when `LocationArn` is absent, the payload's value otherwise |
| `DataSync.Assign` | aws-cpp-sdk-datasync/source/model/CreateLocationFsxOntapResult.cpp:28-40 | the field takes the payload's `LocationArn` when the key exists, otherwise the object is unchanged |
| `DataSync.AssignReadsOnlyItsKey` | aws-cpp-sdk-datasync/source/model/CreateLocationFsxOntapResult.cpp:28-40 | results that agree on `LocationArn` give the same object: other keys, headers and status code are ignored |
| `DataSync.AssignIdempotent` | aws-cpp-sdk-datasync/source/model/CreateLocationFsxOntapResult.cpp:28-40 | applying `operator=` twice with the same result equals applying it once |
| `DataSync.AssignOverwritesOnlyWhenPresent` | aws-cpp-sdk-datasync/source/model/CreateLocationFsxOntapResult.cpp:30-36 | with the key present the prior string does not matter: any two prior objects give the same result; with it absent the object is unchanged, so distinct prior objects stay distinct |
| `BackupStorage.Default` | aws-cpp-sdk-backupstorage/source/model/StartObjectResult.cpp:19-21 | the default object holds an empty UploadId |
| `BackupStorage.FromResult` | aws-cpp-sdk-backupstorage/source/model/StartObjectResult.cpp:23-26 | construction from a result is default construction followed by `operator=`: default when `UploadId` is absent, the payload's value otherwise |
| `BackupStorage.Assign` | aws-cpp-sdk-backupstorage/source/model/StartObjectResult.cpp:28-40 | the field takes the payload's `UploadId` when the key exists, otherwise the object is unchanged |
| `BackupStorage.AssignReadsOnlyItsKey` | aws-cpp-sdk-backupstorage/source/model/StartObjectResult.cpp:28-40 | results that agree on `UploadId` give the same object: other keys, headers and status code are ignored |
| `BackupStorage.AssignIdempotent` | aws-cpp-sdk-backupstorage/source/model/StartObjectResult.cpp:28-40 | applying `operator=` twice with the same result equals applying it once |
| `BackupStorage.AssignOverwritesOnlyWhenPresent` | aws-cpp-sdk-backupstorage/source/model/StartObjectResult.cpp:30-36 | with the key present the prior string does not matter: any two prior objects give the same result; with it absent the object is unchanged, so distinct prior objects stay distinct |
| `Proton.Default` | aws-cpp-sdk-proton/source/model/CreateEnvironmentTemplateResult.cpp:19-21 | the default object holds an empty environmentTemplate |
| `Proton.FromResult` | aws-cpp-sdk-proton/source/model/CreateEnvironmentTemplateResult.cpp:23-26 | construction from a result is default construction followed by `operator=`: default when `environmentTemplate` is absent, the existing members of the payload's object otherwise |
| `Proton.Assign` | aws-cpp-sdk-proton/source/model/CreateEnvironmentTemplateResult.cpp:28-40 | when the key exists, the payload's `environmentTemplate` members are merged into the prior template (nested `operator=(JsonView)`); otherwise the object is unchanged |
| `Proton.AssignReadsOnlyItsKey` | aws-cpp-sdk-proton/source/model/CreateEnvironmentTemplateResult.cpp:28-40 | results that agree on `environmentTemplate` give the same object: other keys, headers and status code are ignored |
| `Proton.AssignIdempotent` | aws-cpp-sdk-proton/source/model/CreateEnvironmentTemplateResult.cpp:28-40 | applying `operator=` twice with the same result equals applying it once |
| `Proton.AssignOverwritesOnlyWhenPresent` | aws-cpp-sdk-proton/source/model/CreateEnvironmentTemplateResult.cpp:30-36 | with the key present, two prior templates end up equal if and only if they agreed on every member the incoming object does not assign; with it absent distinct prior states stay distinct |
| `AlexaForBusiness.Default` | aws-cpp-sdk-alexaforbusiness/include/aws/alexaforbusiness/model/NetworkProfile.h:493-521 | no HasBeenSet flag is raised after default construction (member initialisers); values are whatever the constructor chose |
| `AlexaForBusiness.SetNetworkProfileArn` | aws-cpp-sdk-alexaforbusiness/include/aws/alexaforbusiness/model/NetworkProfile.h:56-81 | stores v in NetworkProfileArn, raises only its flag (flag 0 of 10), leaves every other field and flag unchanged; WithNetworkProfileArn has the same effect |
| `AlexaForBusiness.WithNetworkProfileArn` | aws-cpp-sdk-alexaforbusiness/include/aws/alexaforbusiness/model/NetworkProfile.h:71-81 | same stored value, same single raised flag and same frame as SetNetworkProfileArn |
| `AlexaForBusiness.SetNetworkProfileName` | aws-cpp-sdk-alexaforbusiness/include/aws/alexaforbusiness/model/NetworkProfile.h:97-122 | stores v in NetworkProfileName, raises only its flag (flag 1 of 10), leaves every other field and flag unchanged; WithNetworkProfileName has the same effect |
| `AlexaForBusiness.SetDescription` | aws-cpp-sdk-alexaforbusiness/include/aws/alexaforbusiness/model/NetworkProfile.h:138-163 | stores v in Description, raises only its flag (flag 2 of 10), leaves every other field and flag unchanged; WithDescription has the same effect |
| `AlexaForBusiness.SetSsid` | aws-cpp-sdk-alexaforbusiness/include/aws/alexaforbusiness/model/NetworkProfile.h:179-204 | stores v in Ssid, raises only its flag (flag 3 of 10), leaves every other field and flag unchanged; WithSsid has the same effect |
| `AlexaForBusiness.SetSecurityType` | aws-cpp-sdk-alexaforbusiness/include/aws/alexaforbusiness/model/NetworkProfile.h:223-241 | stores v in SecurityType, raises only its flag (flag 4 of 10), leaves every other field and flag unchanged; WithSecurityType has the same effect |
| `AlexaForBusiness.SetEapMethod` | aws-cpp-sdk-alexaforbusiness/include/aws/alexaforbusiness/model/NetworkProfile.h:260-278 | stores v in EapMethod, raises only its flag (flag 5 of 10), leaves every other field and flag unchanged; WithEapMethod has the same effect |
| `AlexaForBusiness.SetCurrentPassword` | aws-cpp-sdk-alexaforbusiness/include/aws/alexaforbusiness/model/NetworkProfile.h:294-319 | stores v in CurrentPassword, raises only its flag (flag 6 of 10), leaves every other field and flag unchanged; WithCurrentPassword has the same effect |
| `AlexaForBusiness.SetNextPassword` | aws-cpp-sdk-alexaforbusiness/include/aws/alexaforbusiness/model/NetworkProfile.h:341-376 | stores v in NextPassword, raises only its flag (flag 7 of 10), leaves every other field and flag unchanged; WithNextPassword has the same effect |
| `AlexaForBusiness.SetCertificateAuthorityArn` | aws-cpp-sdk-alexaforbusiness/include/aws/alexaforbusiness/model/NetworkProfile.h:395-425 | stores v in CertificateAuthorityArn, raises only its flag (flag 8 of 10), leaves every other field and flag unchanged; WithCertificateAuthorityArn has the same effect |
| `AlexaForBusiness.SetTrustAnchors` | aws-cpp-sdk-alexaforbusiness/include/aws/alexaforbusiness/model/NetworkProfile.h:447-468 | stores v in TrustAnchors, raises only its flag (flag 9 of 10), leaves every other field and flag unchanged; WithTrustAnchors has the same effect |
| `AlexaForBusiness.AddTrustAnchors` | aws-cpp-sdk-alexaforbusiness/include/aws/alexaforbusiness/model/NetworkProfile.h:475-489 | appends x at the end of TrustAnchors and raises its flag; every other field and flag unchanged |
| `AlexaForBusiness.AddTrustAnchorsEachAppends` | aws-cpp-sdk-alexaforbusiness/include/aws/alexaforbusiness/model/NetworkProfile.h:475-489 | any sequence of AddTrustAnchors calls equals one SetTrustAnchors of the old list followed by the added elements, in call order |
| `AlexaForBusiness.EmptyTrustAnchorsArePresent` | aws-cpp-sdk-alexaforbusiness/include/aws/alexaforbusiness/model/NetworkProfile.h:447-468 | `SetTrustAnchors([])` leaves the list empty with its flag raised; any run of adds after it yields exactly the added elements, in order, flagged |
| `IoT.GetServiceRequestName` | aws-cpp-sdk-iot/include/aws/iot/model/CreateScheduledAuditRequest.h:34 | always `"CreateScheduledAudit"`, independent of the request's fields |
| `IoT.Default` | aws-cpp-sdk-iot/include/aws/iot/model/CreateScheduledAuditRequest.h:375-391 | no HasBeenSet flag is raised after default construction (member initialisers); values are whatever the constructor chose |
| `IoT.SetFrequency` | aws-cpp-sdk-iot/include/aws/iot/model/CreateScheduledAuditRequest.h:58-79 | stores v in Frequency, raises only its flag (flag 0 of 6), leaves every other field and flag unchanged; WithFrequency has the same effect |
| `IoT.SetDayOfMonth` | aws-cpp-sdk-iot/include/aws/iot/model/CreateScheduledAuditRequest.h:107-152 | stores v in DayOfMonth, raises only its flag (flag 1 of 6), leaves every other field and flag unchanged; WithDayOfMonth has the same effect |
| `IoT.SetDayOfWeek` | aws-cpp-sdk-iot/include/aws/iot/model/CreateScheduledAuditRequest.h:180-207 | stores v in DayOfWeek, raises only its flag (flag 2 of 6), leaves every other field and flag unchanged; WithDayOfWeek has the same effect |
| `IoT.SetTargetCheckNames` | aws-cpp-sdk-iot/include/aws/iot/model/CreateScheduledAuditRequest.h:235-262 | stores v in TargetCheckNames, raises only its flag (flag 3 of 6), leaves every other field and flag unchanged; WithTargetCheckNames has the same effect |
| `IoT.AddTargetCheckNames` | aws-cpp-sdk-iot/include/aws/iot/model/CreateScheduledAuditRequest.h:271-289 | appends x at the end of TargetCheckNames and raises its flag; every other field and flag unchanged |
| `IoT.AddTargetCheckNamesEachAppends` | aws-cpp-sdk-iot/include/aws/iot/model/CreateScheduledAuditRequest.h:271-289 | any sequence of AddTargetCheckNames calls equals one SetTargetCheckNames of the old list followed by the added elements, in call order |
| `IoT.SetScheduledAuditName` | aws-cpp-sdk-iot/include/aws/iot/model/CreateScheduledAuditRequest.h:305-330 | stores v in ScheduledAuditName, raises only its flag (flag 4 of 6), leaves every other field and flag unchanged; WithScheduledAuditName has the same effect |
| `IoT.SetTags` | aws-cpp-sdk-iot/include/aws/iot/model/CreateScheduledAuditRequest.h:346-361 | stores v in Tags, raises only its flag (flag 5 of 6), leaves every other field and flag unchanged; WithTags has the same effect |
| `IoT.AddTags` | aws-cpp-sdk-iot/include/aws/iot/model/CreateScheduledAuditRequest.h:366-371 | appends x at the end of Tags and raises its flag; every other field and flag unchanged |
| `IoT.AddTagsEachAppends` | aws-cpp-sdk-iot/include/aws/iot/model/CreateScheduledAuditRequest.h:366-371 | any sequence of AddTags calls equals one SetTags of the old list followed by the added elements, in call order |
| `IoT.DayOfMonthIgnoresFrequency` | aws-cpp-sdk-iot/include/aws/iot/model/CreateScheduledAuditRequest.h:107-152 | the day of month is stored and flagged regardless of the frequency set before it; MONTHLY is not enforced |
| `IoT.SetTagsDiscardsAddedTags` | aws-cpp-sdk-iot/include/aws/iot/model/CreateScheduledAuditRequest.h:346-371 | a `SetTags` after `AddTags` leaves exactly the given list: set replaces, add appends |
| `Glue.Default` | aws-cpp-sdk-glue/include/aws/glue/model/JDBCConnectorTarget.h:411-433 | no HasBeenSet flag is raised after default construction (member initialisers); values are whatever the constructor chose |
| `Glue.SetName` | aws-cpp-sdk-glue/include/aws/glue/model/JDBCConnectorTarget.h:57-82 | stores v in Name, raises only its flag (flag 0 of 8), leaves every other field and flag unchanged; WithName has the same effect |
| `Glue.SetInputs` | aws-cpp-sdk-glue/include/aws/glue/model/JDBCConnectorTarget.h:98-113 | stores v in Inputs, raises only its flag (flag 1 of 8), leaves every other field and flag unchanged; WithInputs has the same effect |
| `Glue.AddInputs` | aws-cpp-sdk-glue/include/aws/glue/model/JDBCConnectorTarget.h:118-128 | appends x at the end of Inputs and raises its flag; every other field and flag unchanged |
| `Glue.AddInputsEachAppends` | aws-cpp-sdk-glue/include/aws/glue/model/JDBCConnectorTarget.h:118-128 | any sequence of AddInputs calls equals one SetInputs of the old list followed by the added elements, in call order |
| `Glue.SetConnectionName` | aws-cpp-sdk-glue/include/aws/glue/model/JDBCConnectorTarget.h:144-169 | stores v in ConnectionName, raises only its flag (flag 2 of 8), leaves every other field and flag unchanged; WithConnectionName has the same effect |
| `Glue.SetConnectionTable` | aws-cpp-sdk-glue/include/aws/glue/model/JDBCConnectorTarget.h:185-210 | stores v in ConnectionTable, raises only its flag (flag 3 of 8), leaves every other field and flag unchanged; WithConnectionTable has the same effect |
| `Glue.SetConnectorName` | aws-cpp-sdk-glue/include/aws/glue/model/JDBCConnectorTarget.h:226-251 | stores v in ConnectorName, raises only its flag (flag 4 of 8), leaves every other field and flag unchanged; WithConnectorName has the same effect |
| `Glue.SetConnectionType` | aws-cpp-sdk-glue/include/aws/glue/model/JDBCConnectorTarget.h:270-300 | stores v in ConnectionType, raises only its flag (flag 5 of 8), leaves every other field and flag unchanged; WithConnectionType has the same effect |
| `Glue.SetAdditionalOptions` | aws-cpp-sdk-glue/include/aws/glue/model/JDBCConnectorTarget.h:316-331 | stores v in AdditionalOptions, raises only its flag (flag 6 of 8), leaves every other field and flag unchanged; WithAdditionalOptions has the same effect |
| `Glue.AddAdditionalOptions` | aws-cpp-sdk-glue/include/aws/glue/model/JDBCConnectorTarget.h:336-366 | an existing key keeps its value (map unchanged); an absent key gains k -> v; the flag is raised in both cases; nothing else changes |
| `Glue.AddAdditionalOptionsEachIsFirstWins` | aws-cpp-sdk-glue/include/aws/glue/model/JDBCConnectorTarget.h:336-366 | any sequence of AddAdditionalOptions calls equals one SetAdditionalOptions of a union in which present entries, then earlier pairs, win |
| `Glue.SetOutputSchemas` | aws-cpp-sdk-glue/include/aws/glue/model/JDBCConnectorTarget.h:382-397 | stores v in OutputSchemas, raises only its flag (flag 7 of 8), leaves every other field and flag unchanged; WithOutputSchemas has the same effect |
| `Glue.AddOutputSchemas` | aws-cpp-sdk-glue/include/aws/glue/model/JDBCConnectorTarget.h:402-407 | appends x at the end of OutputSchemas and raises its flag; every other field and flag unchanged |
| `Glue.AddOutputSchemasEachAppends` | aws-cpp-sdk-glue/include/aws/glue/model/JDBCConnectorTarget.h:402-407 | any sequence of AddOutputSchemas calls equals one SetOutputSchemas of the old list followed by the added elements, in call order |
| `Glue.AdditionalOptionKeepsFirstValue` | aws-cpp-sdk-glue/include/aws/glue/model/JDBCConnectorTarget.h:336-366 | adding an existing key again changes nothing: the first value stays |
| `Glue.SetAdditionalOptionsDiscardsAdded` | aws-cpp-sdk-glue/include/aws/glue/model/JDBCConnectorTarget.h:316-321 | a set after adds leaves exactly the given map |
| `SSM.Default` | aws-cpp-sdk-ssm/include/aws/ssm/model/AssociationOverview.h:196-203 | no HasBeenSet flag is raised after default construction (member initialisers); values are whatever the constructor chose |
| `SSM.SetStatus` | aws-cpp-sdk-ssm/include/aws/ssm/model/AssociationOverview.h:57-87 | stores v in Status, raises only its flag (flag 0 of 3), leaves every other field and flag unchanged; WithStatus has the same effect |
| `SSM.SetDetailedStatus` | aws-cpp-sdk-ssm/include/aws/ssm/model/AssociationOverview.h:103-128 | stores v in DetailedStatus, raises only its flag (flag 1 of 3), leaves every other field and flag unchanged; WithDetailedStatus has the same effect |
| `SSM.SetAssociationStatusAggregatedCount` | aws-cpp-sdk-ssm/include/aws/ssm/model/AssociationOverview.h:150-171 | stores v in AssociationStatusAggregatedCount, raises only its flag (flag 2 of 3), leaves every other field and flag unchanged; WithAssociationStatusAggregatedCount has the same effect |
| `SSM.AddAssociationStatusAggregatedCount` | aws-cpp-sdk-ssm/include/aws/ssm/model/AssociationOverview.h:178-192 | an existing key keeps its value (map unchanged); an absent key gains k -> v; the flag is raised in both cases; nothing else changes |
| `SSM.AddAssociationStatusAggregatedCountEachIsFirstWins` | aws-cpp-sdk-ssm/include/aws/ssm/model/AssociationOverview.h:178-192 | any sequence of AddAssociationStatusAggregatedCount calls equals one SetAssociationStatusAggregatedCount of a union in which present entries, then earlier pairs, win |
| `SSM.CountIsNeverOverwritten` | aws-cpp-sdk-ssm/include/aws/ssm/model/AssociationOverview.h:178-192 | for a key already present the map is unchanged and the flag becomes true |
| `SSM.SetCountDiscardsAdded` | aws-cpp-sdk-ssm/include/aws/ssm/model/AssociationOverview.h:150-171 | a set after adds leaves exactly the given map |
| `Neptune.GetServiceRequestName` | aws-cpp-sdk-neptune/include/aws/neptune/model/CopyDBParameterGroupRequest.h:32 | always `"CopyDBParameterGroup"`, independent of the request's fields |
| `Neptune.Default` | aws-cpp-sdk-neptune/include/aws/neptune/model/CopyDBParameterGroupRequest.h:294-304 | no HasBeenSet flag is raised after default construction (member initialisers); values are whatever the constructor chose |
| `Neptune.SetSourceDBParameterGroupIdentifier` | aws-cpp-sdk-neptune/include/aws/neptune/model/CopyDBParameterGroupRequest.h:72-127 | stores v in SourceDBParameterGroupIdentifier, raises only its flag (flag 0 of 4), leaves every other field and flag unchanged; WithSourceDBParameterGroupIdentifier has the same effect |
| `Neptune.SetTargetDBParameterGroupIdentifier` | aws-cpp-sdk-neptune/include/aws/neptune/model/CopyDBParameterGroupRequest.h:158-208 | stores v in TargetDBParameterGroupIdentifier, raises only its flag (flag 1 of 4), leaves every other field and flag unchanged; WithTargetDBParameterGroupIdentifier has the same effect |
| `Neptune.SetTargetDBParameterGroupDescription` | aws-cpp-sdk-neptune/include/aws/neptune/model/CopyDBParameterGroupRequest.h:224-249 | stores v in TargetDBParameterGroupDescription, raises only its flag (flag 2 of 4), leaves every other field and flag unchanged; WithTargetDBParameterGroupDescription has the same effect |
| `Neptune.SetTags` | aws-cpp-sdk-neptune/include/aws/neptune/model/CopyDBParameterGroupRequest.h:265-280 | stores v in Tags, raises only its flag (flag 3 of 4), leaves every other field and flag unchanged; WithTags has the same effect |
| `Neptune.AddTags` | aws-cpp-sdk-neptune/include/aws/neptune/model/CopyDBParameterGroupRequest.h:285-290 | appends x at the end of Tags and raises its flag; every other field and flag unchanged |
| `Neptune.AddTagsEachAppends` | aws-cpp-sdk-neptune/include/aws/neptune/model/CopyDBParameterGroupRequest.h:285-290 | any sequence of AddTags calls equals one SetTags of the old list followed by the added elements, in call order |
| `Neptune.TargetIdentifierIsNotValidated` | aws-cpp-sdk-neptune/include/aws/neptune/model/CopyDBParameterGroupRequest.h:158-208 | an empty identifier and one ending in a hyphen are both stored with the flag raised |
| `Neptune.SetTagsDiscardsAddedTags` | aws-cpp-sdk-neptune/include/aws/neptune/model/CopyDBParameterGroupRequest.h:265-290 | a `SetTags` after `AddTags` leaves exactly the given list |
| `ACM.Default` | aws-cpp-sdk-acm/include/aws/acm/model/DomainValidation.h:329-345 | no HasBeenSet flag is raised after default construction (member initialisers); values are whatever the constructor chose |
| `ACM.SetDomainName` | aws-cpp-sdk-acm/include/aws/acm/model/DomainValidation.h:61-91 | stores v in DomainName, raises only its flag (flag 0 of 6), leaves every other field and flag unchanged; WithDomainName has the same effect |
| `ACM.WithDomainName` | aws-cpp-sdk-acm/include/aws/acm/model/DomainValidation.h:79-91 | same stored value, same single raised flag and same frame as SetDomainName |
| `ACM.SetValidationEmails` | aws-cpp-sdk-acm/include/aws/acm/model/DomainValidation.h:107-122 | stores v in ValidationEmails, raises only its flag (flag 1 of 6), leaves every other field and flag unchanged; WithValidationEmails has the same effect |
| `ACM.AddValidationEmails` | aws-cpp-sdk-acm/include/aws/acm/model/DomainValidation.h:127-137 | appends x at the end of ValidationEmails and raises its flag; every other field and flag unchanged |
| `ACM.AddValidationEmailsEachAppends` | aws-cpp-sdk-acm/include/aws/acm/model/DomainValidation.h:127-137 | any sequence of AddValidationEmails calls equals one SetValidationEmails of the old list followed by the added elements, in call order |
| `ACM.SetValidationDomain` | aws-cpp-sdk-acm/include/aws/acm/model/DomainValidation.h:153-178 | stores v in ValidationDomain, raises only its flag (flag 2 of 6), leaves every other field and flag unchanged; WithValidationDomain has the same effect |
| `ACM.SetValidationStatus` | aws-cpp-sdk-acm/include/aws/acm/model/DomainValidation.h:200-221 | stores v in ValidationStatus, raises only its flag (flag 3 of 6), leaves every other field and flag unchanged; WithValidationStatus has the same effect |
| `ACM.SetResourceRecord` | aws-cpp-sdk-acm/include/aws/acm/model/DomainValidation.h:258-294 | stores v in ResourceRecord, raises only its flag (flag 4 of 6), leaves every other field and flag unchanged; WithResourceRecord has the same effect |
| `ACM.SetValidationMethod` | aws-cpp-sdk-acm/include/aws/acm/model/DomainValidation.h:310-325 | stores v in ValidationMethod, raises only its flag (flag 5 of 6), leaves every other field and flag unchanged; WithValidationMethod has the same effect |
| `ACM.SetValidationEmailsDiscardsAdded` | aws-cpp-sdk-acm/include/aws/acm/model/DomainValidation.h:107-137 | a set after adds leaves exactly the given list |
| `CloudFront.Default` | aws-cpp-sdk-cloudfront/include/aws/cloudfront/model/DistributionList.h:277-293 | no HasBeenSet flag is raised after default construction (member initialisers); values are whatever the constructor chose |
| `CloudFront.SetMarker` | aws-cpp-sdk-cloudfront/include/aws/cloudfront/model/DistributionList.h:55-80 | stores v in Marker, raises only its flag (flag 0 of 6), leaves every other field and flag unchanged; WithMarker has the same effect |
| `CloudFront.SetNextMarker` | aws-cpp-sdk-cloudfront/include/aws/cloudfront/model/DistributionList.h:102-137 | stores v in NextMarker, raises only its flag (flag 1 of 6), leaves every other field and flag unchanged; WithNextMarker has the same effect |
| `CloudFront.SetMaxItems` | aws-cpp-sdk-cloudfront/include/aws/cloudfront/model/DistributionList.h:153-158 | stores v in MaxItems, raises only its flag (flag 2 of 6), leaves every other field and flag unchanged; WithMaxItems has the same effect |
| `CloudFront.SetIsTruncated` | aws-cpp-sdk-cloudfront/include/aws/cloudfront/model/DistributionList.h:183-191 | stores v in IsTruncated, raises only its flag (flag 3 of 6), leaves every other field and flag unchanged; WithIsTruncated has the same effect |
| `CloudFront.SetQuantity` | aws-cpp-sdk-cloudfront/include/aws/cloudfront/model/DistributionList.h:210-216 | stores v in Quantity, raises only its flag (flag 4 of 6), leaves every other field and flag unchanged; WithQuantity has the same effect |
| `CloudFront.SetItems` | aws-cpp-sdk-cloudfront/include/aws/cloudfront/model/DistributionList.h:238-259 | stores v in Items, raises only its flag (flag 5 of 6), leaves every other field and flag unchanged; WithItems has the same effect |
| `CloudFront.AddItems` | aws-cpp-sdk-cloudfront/include/aws/cloudfront/model/DistributionList.h:266-273 | appends x at the end of Items and raises its flag; every other field and flag unchanged |
| `CloudFront.AddItemsEachAppends` | aws-cpp-sdk-cloudfront/include/aws/cloudfront/model/DistributionList.h:266-273 | any sequence of AddItems calls equals one SetItems of the old list followed by the added elements, in call order |
| `CloudFront.QuantityIsIndependentOfItems` | aws-cpp-sdk-cloudfront/include/aws/cloudfront/model/DistributionList.h:210-273 | after `SetQuantity(n)` then `AddItems(d)`, Quantity is still n while the list grew by one |
| `CloudFront.QuantityCanDisagreeWithItems` | aws-cpp-sdk-cloudfront/include/aws/cloudfront/model/DistributionList.h:210-273 | a reachable state has Quantity 0 and one item |
| `CloudFront.FalseIsTruncatedIsPresent` | aws-cpp-sdk-cloudfront/include/aws/cloudfront/model/DistributionList.h:183-191 | `SetIsTruncated(false)` stores false and raises the flag |
| `ServiceDiscovery.Default` | aws-cpp-sdk-servicediscovery/include/aws/servicediscovery/model/NamespaceFilter.h:228-235 | no HasBeenSet flag is raised after default construction (member initialisers); values are whatever the constructor chose |
| `ServiceDiscovery.SetName` | aws-cpp-sdk-servicediscovery/include/aws/servicediscovery/model/NamespaceFilter.h:57-72 | stores v in Name, raises only its flag (flag 0 of 3), leaves every other field and flag unchanged; WithName has the same effect |
| `ServiceDiscovery.SetValues` | aws-cpp-sdk-servicediscovery/include/aws/servicediscovery/model/NamespaceFilter.h:97-121 | stores v in Values, raises only its flag (flag 1 of 3), leaves every other field and flag unchanged; WithValues has the same effect |
| `ServiceDiscovery.AddValues` | aws-cpp-sdk-servicediscovery/include/aws/servicediscovery/model/NamespaceFilter.h:129-145 | appends x at the end of Values and raises its flag; every other field and flag unchanged |
| `ServiceDiscovery.AddValuesEachAppends` | aws-cpp-sdk-servicediscovery/include/aws/servicediscovery/model/NamespaceFilter.h:129-145 | any sequence of AddValues calls equals one SetValues of the old list followed by the added elements, in call order |
| `ServiceDiscovery.SetCondition` | aws-cpp-sdk-servicediscovery/include/aws/servicediscovery/model/NamespaceFilter.h:185-224 | stores v in Condition, raises only its flag (flag 2 of 3), leaves every other field and flag unchanged; WithCondition has the same effect |
| `ServiceDiscovery.AddValuesIgnoresCondition` | aws-cpp-sdk-servicediscovery/include/aws/servicediscovery/model/NamespaceFilter.h:129-198 | under condition EQ two added values are both kept |
| `ServiceDiscovery.SetValuesDiscardsAdded` | aws-cpp-sdk-servicediscovery/include/aws/servicediscovery/model/NamespaceFilter.h:97-145 | a set after adds leaves exactly the given list |
| `WorkSpacesWeb.GetServiceRequestName` | aws-cpp-sdk-workspaces-web/include/aws/workspaces-web/model/CreateTrustStoreRequest.h:34 | always `"CreateTrustStore"`, independent of the request's fields |
| `WorkSpacesWeb.Default` | aws-cpp-sdk-workspaces-web/include/aws/workspaces-web/model/CreateTrustStoreRequest.h:203-210 | the certificate list and the tags start unflagged (member initialisers); the client token, value and flag, is whatever the constructor chose |
| `WorkSpacesWeb.SetCertificateList` | aws-cpp-sdk-workspaces-web/include/aws/workspaces-web/model/CreateTrustStoreRequest.h:52-67 | stores v in CertificateList, raises only its flag (flag 0 of 3), leaves every other field and flag unchanged; WithCertificateList has the same effect |
| `WorkSpacesWeb.AddCertificateList` | aws-cpp-sdk-workspaces-web/include/aws/workspaces-web/model/CreateTrustStoreRequest.h:72-77 | appends x at the end of CertificateList and raises its flag; every other field and flag unchanged |
| `WorkSpacesWeb.AddCertificateListEachAppends` | aws-cpp-sdk-workspaces-web/include/aws/workspaces-web/model/CreateTrustStoreRequest.h:72-77 | any sequence of AddCertificateList calls equals one SetCertificateList of the old list followed by the added elements, in call order |
| `WorkSpacesWeb.SetClientToken` | aws-cpp-sdk-workspaces-web/include/aws/workspaces-web/model/CreateTrustStoreRequest.h:108-158 | stores v in ClientToken, raises only its flag (flag 1 of 3), leaves every other field and flag unchanged; WithClientToken has the same effect |
| `WorkSpacesWeb.SetTags` | aws-cpp-sdk-workspaces-web/include/aws/workspaces-web/model/CreateTrustStoreRequest.h:174-189 | stores v in Tags, raises only its flag (flag 2 of 3), leaves every other field and flag unchanged; WithTags has the same effect |
| `WorkSpacesWeb.AddTags` | aws-cpp-sdk-workspaces-web/include/aws/workspaces-web/model/CreateTrustStoreRequest.h:194-199 | appends x at the end of Tags and raises its flag; every other field and flag unchanged |
| `WorkSpacesWeb.AddTagsEachAppends` | aws-cpp-sdk-workspaces-web/include/aws/workspaces-web/model/CreateTrustStoreRequest.h:194-199 | any sequence of AddTags calls equals one SetTags of the old list followed by the added elements, in call order |
| `WorkSpacesWeb.SetTagsDiscardsAddedTags` | aws-cpp-sdk-workspaces-web/include/aws/workspaces-web/model/CreateTrustStoreRequest.h:174-199 | a `SetTags` after `AddTags` leaves exactly the given list |
| `ElasticTranscoder.Default` | aws-cpp-sdk-elastictranscoder/include/aws/elastictranscoder/model/Captions.h:91-92 | no HasBeenSet flag is raised after default construction (member initialisers); values are whatever the constructor chose |
| `ElasticTranscoder.SetCaptionFormats` | aws-cpp-sdk-elastictranscoder/include/aws/elastictranscoder/model/Captions.h:57-75 | stores v in CaptionFormats, raises only its flag (flag 0 of 1), leaves every other field and flag unchanged; WithCaptionFormats has the same effect |
| `ElasticTranscoder.WithCaptionFormats` | aws-cpp-sdk-elastictranscoder/include/aws/elastictranscoder/model/Captions.h:69-75 | same stored value, same single raised flag and same frame as SetCaptionFormats |
| `ElasticTranscoder.AddCaptionFormats` | aws-cpp-sdk-elastictranscoder/include/aws/elastictranscoder/model/Captions.h:81-87 | appends x at the end of CaptionFormats and raises its flag; every other field and flag unchanged |
| `ElasticTranscoder.AddCaptionFormatsEachAppends` | aws-cpp-sdk-elastictranscoder/include/aws/elastictranscoder/model/Captions.h:81-87 | any sequence of AddCaptionFormats calls equals one SetCaptionFormats of the old list followed by the added elements, in call order |
| `WorkSpaces.GetServiceRequestName` | aws-cpp-sdk-workspaces/include/aws/workspaces/model/StopWorkspacesRequest.h:31 | always `"StopWorkspaces"`, independent of the request's fields |
| `WorkSpaces.Default` | aws-cpp-sdk-workspaces/include/aws/workspaces/model/StopWorkspacesRequest.h:80-81 | no HasBeenSet flag is raised after default construction (member initialisers); values are whatever the constructor chose |
| `WorkSpaces.SetStopWorkspaceRequests` | aws-cpp-sdk-workspaces/include/aws/workspaces/model/StopWorkspacesRequest.h:51-66 | stores v in StopWorkspaceRequests, raises only its flag (flag 0 of 1), leaves every other field and flag unchanged; WithStopWorkspaceRequests has the same effect |
| `WorkSpaces.AddStopWorkspaceRequests` | aws-cpp-sdk-workspaces/include/aws/workspaces/model/StopWorkspacesRequest.h:71-76 | appends x at the end of StopWorkspaceRequests and raises its flag; every other field and flag unchanged |
| `WorkSpaces.AddStopWorkspaceRequestsEachAppends` | aws-cpp-sdk-workspaces/include/aws/workspaces/model/StopWorkspacesRequest.h:71-76 | any sequence of AddStopWorkspaceRequests calls equals one SetStopWorkspaceRequests of the old list followed by the added elements, in call order |
| `WorkSpaces.NoCapOnStopRequests` | aws-cpp-sdk-workspaces/include/aws/workspaces/model/StopWorkspacesRequest.h:39-76 | 26 successive adds give a list longer than the documented 25 |

## Left out

- The `*Callable` and `*Async` variants of every client operation are left out. They submit the synchronous body to a thread pool and return a future, which is concurrency; the synchronous body they run is modelled.
- The request routines (`MakeRequest`, `MakeRequestWithUnparsedResponse`), SigV4 signing, the HTTP transport and the error marshaller are external. A successful operation body ends in a `Dispatched` value that records what those routines were given.
- `GlacierEndpoint::ForRegion`, `InspectorEndpoint::ForRegion` and `SchemeMapper::ToString` are outside this model. The scheme name and the regional endpoint enter as strings.
- How `Aws::Http::URI` splits and percent-encodes path segments is not visible. Paths are sequences of segments, and the query string is kept as written.
- The JSON library is external. Its behaviour is modelled on these assumptions:
  - `ValueExists` holds for a present, non-null key.
  - `GetString` and `GetObject` of a value of the wrong kind give `""` and the empty object.
  - Numbers are integers.
- Nested model types are carried as the null-free JSON object their own writer would produce, and their own readers and writers are assumed to round-trip. Assigning a JSON view to a nested `EncryptionConfiguration` or `EnvironmentTemplate` is modelled as the generated `operator=(JsonView)` pattern: existing members are assigned, the others kept. The nested reader's restriction to its own keys and their kinds is not modelled. These are `EncryptionConfiguration` and `EnvironmentTemplate`, plus `Tag`, `GlueSchema`, `DistributionSummary`, `ResourceRecord`, `CaptionFormat`, `StopRequest` and the enumerations, which are all identity-only `Opaque` values. A default-constructed `EnvironmentTemplate` is taken to serialise to the empty object.
- The constructors of the header classes are not shown, so each `Default` takes the initial values as a parameter and states only that the member initialisers lower the flags, with the one exception below. This covers the enumeration defaults and the uninitialised `int`/`bool` members of `DistributionList`.
- WorkSpacesWeb.Default: makes no claim about the client token of `CreateTrustStoreRequest`, flag included, because its documentation says the SDK generates a token when none is given and the constructor that would do so is not shown.
- Only three `With<F>` functions are declared separately (`AlexaForBusiness.WithNetworkProfileArn`, `ACM.WithDomainName`, `ElasticTranscoder.WithCaptionFormats`). Every other `With<F>` calls `Set<F>` and returns the object, so its `Set<F>` row covers it. The rvalue and `const char*` overloads likewise have the effect of the one modelled.
- The getters and `<F>HasBeenSet` accessors are left out. They are field reads of the datatype.
- `SerializePayload`, `GetRequestSpecificHeaders` and the XML and JSON writers of the header classes are left out because their bodies are not shown.
- Logging (`AWS_LOGSTREAM_ERROR`) and `SetServiceClientName` are left out. They have no effect on the outcome.
- Constraints written only in documentation comments are not modelled as checks: name lengths, identifier syntax, "required if MONTHLY", "up to 25", one value under `EQ`. Lemmas show that the setters do not enforce them.
- The C++ `int` fields and map values are `int32`. No arithmetic is done on them.
