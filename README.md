# Contracts Data API client: failure translation and resilience pipeline

This project models the core of the Contracts Data API client library in Dafny.
The client is a typed HTTP client for the contracts data service. It turns each
operation into an HTTP request. It translates the service's failure statuses
into a family of client exceptions. Its requests go through a resilience
pipeline: a retry policy wrapped around a consecutive-count circuit breaker,
both kept in a shared policy registry.

The project has four modules:

- `Text` (`text.dfy`): how C# string interpolation renders an `int` (with `-`
  as the negative sign, as in the invariant culture), and the
  `name=value&...` shape of a query string. Each rendering has a parser with a
  proved round trip. The request targets and exception messages are built
  from these.
- `ContractsDataService` (`contracts_data_service.dfy`): the eight operations,
  the request each one sends, and the two-stage failure translation. Stage one
  is the `FailureAction` hook the base client runs on every failure. Stage two
  is the catch block around create, manual approve, confirm approval and
  withdraw. Exceptions that are not an `ApiGeneralException` (the open
  breaker's rejection, a network failure) pass through both stages
  unchanged. This module also covers the try-get variant, the exception
  messages that carry the contract number and version, and how a pipeline
  outcome reaches an operation.
- `PolicyBuilderExtension` (`policy_builder_extension.dfy`): binding
  `HttpPolicyOptions`, the registry keys `{Service}_Retry` and
  `{Service}_CircuitBreaker`, and `AddPolicies`. Here the registry is a class
  whose map field the method updates in place. The circuit-breaker entry refers
  to a `Circuit` object that holds the breaker's mutable state.
- `HttpClientBuilderExtension` (`http_client_builder_extension.dfy`):
  `AddHttpClientBuilder` is a loop that appends one handler key per requested
  policy. Resolving those keys against the registry is modelled too. The
  run-time pipeline is the class `ResilientTransport`: its `Send` loops over
  attempts and counts sends. It updates the registered `Circuit`, which every
  client built from the same registry entry shares. `Send` is
  proved against the function `RetryOverBreaker`. The three resilience
  scenarios of the unit tests are reproduced as methods.

`FailureAction` runs on every operation's failure
(ContractsDataService.cs:182-194). So get-by-id, get-by-number, update-reminder
and create also raise BadRequest on 400 and NotFound on 404, not only the
operations with a catch block of their own. The unit tests expect this for
update-reminder and create (ContractsDataServiceTests.cs:257-263, 314-320).
`TranslationTable` states it for every operation and status.

Source paths below are relative to the repository root.

## Model

| member | source | states |
|---|---|---|
| Text.NatToDecimal | Pds.Contracts.Data.Api.Client/Implementations/ContractsDataService.cs:71-78 | Rendering a `uint` gives at least one digit, only digits, and no leading zero. |
| Text.IntToDecimal | Pds.Contracts.Data.Api.Client/Implementations/ContractsDataService.cs:46 | Rendering an `int` gives at least one character. It starts with `-` exactly when the number is negative, and every other character is a digit. |
| Text.DecimalRoundTrip | Pds.Contracts.Data.Api.Client/Implementations/ContractsDataService.cs:71-78 | Reading back the decimal digits of a natural number gives the number back. This holds for the unsigned reminder parameters. |
| Text.IntRoundTrip | Pds.Contracts.Data.Api.Client/Implementations/ContractsDataService.cs:46 | An interpolated `int`, negative ones included, parses back to the same value. |
| Text.SplitJoin | Pds.Contracts.Data.Api.Client/Implementations/ContractsDataService.cs:78 | Joining parts that do not contain the separator, then splitting at it, gives the same parts. |
| Text.QueryRoundTrip | Pds.Contracts.Data.Api.Client/Implementations/ContractsDataService.cs:78 | A query string built from parameters whose names have no `=` or `&` and whose values have no `&` parses back to the same parameters, in order. |
| Text.AmpersandInValue | Pds.Contracts.Data.Api.Client/Implementations/ContractsDataService.cs:66 | A value holding `&` reads back as two parameters: the text before the `&` as the value, and the text after it as a parameter name with an empty value. |
| Text.TargetRoundTrip | Pds.Contracts.Data.Api.Client/Implementations/ContractsDataService.cs:66 | `path?query` splits back into the path and the parameters when the path has no `?`. |
| ContractsDataService.ContractByIdTarget | Pds.Contracts.Data.Api.Client/Implementations/ContractsDataService.cs:46 | The get-by-id target has no query, starts with `/api/contract/`, and the rest parses back to the id. |
| ContractsDataService.ContractByNumberText | Pds.Contracts.Data.Api.Client/Implementations/ContractsDataService.cs:66 | The get target is `/api/contract` with the query `contractNumber`, then `versionNumber`. |
| ContractsDataService.ContractByNumberTarget | Pds.Contracts.Data.Api.Client/Implementations/ContractsDataService.cs:66 | When the number has no `&`, the get target splits back into exactly the number and the rendered version. |
| ContractsDataService.AmpersandInNumberSplitsQuery | Pds.Contracts.Data.Api.Client/Implementations/ContractsDataService.cs:66 | As interpolated, a number `head&tail` gives a get target that reads back as three parameters: `contractNumber=head`, `tail` and `versionNumber`. |
| ContractsDataService.RemindersText | Pds.Contracts.Data.Api.Client/Implementations/ContractsDataService.cs:78 | The reminders target is `/api/contractReminders` with the five parameters in the source's order. |
| ContractsDataService.ReminderParametersPlain | Pds.Contracts.Data.Api.Client/Implementations/ContractsDataService.cs:70-78 | None of the five reminder parameters contains a query delimiter. |
| ContractsDataService.RemindersTarget | Pds.Contracts.Data.Api.Client/Implementations/ContractsDataService.cs:70-78 | The reminders target splits back into its path and the five parameters, for every query. |
| ContractsDataService.DefaultRemindersTarget | Pds.Contracts.Data.Api.Client/Implementations/ContractsDataService.cs:71-75 | With the defaults, the parameters are 14, 1, 10, `LastUpdatedAt` and `Asc`. |
| ContractsDataService.ReminderIdentifier | Pds.Contracts.Data.Api.Client/Implementations/ContractsDataService.cs:85-90 | Update-reminder is a PATCH whose body carries the item's id, number and version. Two items give the same request exactly when those three agree. |
| ContractsDataService.DuplicateMessageCarries | Pds.Contracts.Data.Api.Client/Exceptions/DuplicateContractClientException.cs:44 | The duplicate-contract message holds the contract number at a fixed offset. Its version field parses back to the version. |
| ContractsDataService.HigherVersionMessageCarries | Pds.Contracts.Data.Api.Client/Exceptions/ContractWithHigherVersionAlreadyExistsClientException.cs:44 | The same holds for the higher-version-exists message. |
| ContractsDataService.FailureAction | Pds.Contracts.Data.Api.Client/Implementations/ContractsDataService.cs:182-194 | The result wraps the transport exception. It is BadRequest exactly for 400 and NotFound exactly for 404. Every other status is rethrown unchanged. |
| ContractsDataService.CreateContractCatch | Pds.Contracts.Data.Api.Client/Implementations/ContractsDataService.cs:101-111 | An exception already translated passes through untouched. The wrapped transport exception is always kept. |
| ContractsDataService.StatusChangeCatch | Pds.Contracts.Data.Api.Client/Implementations/ContractsDataService.cs:123-133 | The same for the catch block that manual approve, confirm approval and withdraw share. |
| ContractsDataService.Invoke | Pds.Contracts.Data.Api.Client/Implementations/ContractsDataService.cs:94-112 | An operation succeeds exactly when the send did, and returns the delivered body. It raises a client exception exactly when the send failed with a status, and that exception wraps the transport exception. An exception from the pipeline is rethrown unchanged. |
| ContractsDataService.TryGetContract | Pds.Contracts.Data.Api.Client/Implementations/ContractsDataService.cs:50-60 | Try-get returns absent exactly when get fails with NotFound. It returns the contract exactly when get succeeds. Every other client exception, and every exception from the pipeline, is passed on unchanged. |
| ContractsDataService.TranslationTable | Pds.Contracts.Data.Api.Client.Tests/Unit/ContractsDataServiceTests.cs:226-520 | For every operation and failure status, the raised exception kind matches a flat (operation, status) table. |
| ContractsDataService.FirstStageWins | Pds.Contracts.Data.Api.Client/Implementations/ContractsDataService.cs:186-191 | 400 and 404 are translated by the hook before any catch block sees them, for every operation. |
| ContractsDataService.CreateConflicts | Pds.Contracts.Data.Api.Client/Implementations/ContractsDataService.cs:101-111 | For create, 412 gives higher-version-exists and 409 gives duplicate, each with the request's number and version in the message. Other unhandled statuses stay generic. |
| ContractsDataService.StatusChangeConflicts | Pds.Contracts.Data.Api.Client/Implementations/ContractsDataService.cs:167-177 | For the status-changing operations, 412 gives the invalid-status exception. 409 gives update-concurrency carrying the request's number and version. Other statuses stay generic. |
| ContractsDataService.TryGetScenarios | Pds.Contracts.Data.Api.Client.Tests/Unit/ContractsDataServiceTests.cs:88-110 | A 404 gives try-get an absent result while plain get raises. A delivered contract is returned, and a 400 is still raised. |
| ContractsDataService.FromPipeline | Pds.Contracts.Data.Api.Client/Implementations/ContractsDataService.cs:182-186 | The open breaker's rejection and a network failure reach the base client as those exceptions. A non-2xx status becomes an `ApiGeneralException` with that status. |
| ContractsDataService.AbortsPassThrough | Pds.Contracts.Data.Api.Client/Implementations/ContractsDataService.cs:50-60 | An exception that is not an `ApiGeneralException` passes unchanged through every operation, try-get included. No catch block of the client matches it. |
| ContractsDataService.OpenBreakerReachesCaller | Pds.Contracts.Data.Api.Client/Implementations/ContractsDataService.cs:97-111 | While the breaker is open, every operation, try-get included, fails with the breaker's exception and sends nothing. |
| PolicyBuilderExtension.PolicyKeyInjective | Pds.Contracts.Data.Api.Client/Extensions/PolicyBuilderExtension.cs:38-47 | Two registry keys are equal exactly when the service and the policy type are. |
| PolicyBuilderExtension.BindOptionsReadsSection | Pds.Contracts.Data.Api.Client/Extensions/PolicyBuilderExtension.cs:35-36 | A setting missing from the section keeps its default: 3 retries, tolerance 5. Settings outside the section have no effect. |
| PolicyBuilderExtension.PolicyRegistry.Add | Pds.Contracts.Data.Api.Client/Extensions/PolicyBuilderExtension.cs:38 | Adding a key not yet present stores the policy under it. A key already present is refused and the registry is left unchanged. |
| PolicyBuilderExtension.AddPolicies | Pds.Contracts.Data.Api.Client/Extensions/PolicyBuilderExtension.cs:30-55 | A null registry is left alone. Otherwise the new registry and the outcome are exactly those of `Register` on the bound options, with a new, closed breaker state. |
| PolicyBuilderExtension.RegistersExactlyTwo | Pds.Contracts.Data.Api.Client/Extensions/PolicyBuilderExtension.cs:38-52 | A completed registration adds exactly the retry and breaker policies built from the options, under the service's two keys. The breaker entry holds the new breaker state. Every other entry is kept, and the registry grows by two. |
| PolicyBuilderExtension.RegisterCompletes | Pds.Contracts.Data.Api.Client/Extensions/PolicyBuilderExtension.cs:38-52 | Registration completes exactly when the retry count is at least 0, the tolerance at least 1, and neither key is taken. |
| PolicyBuilderExtension.DefaultRegistration | Pds.Contracts.Data.Api.Client.Tests/Unit/PolicyBuilderExtensionTests.cs:18-45 | With no settings, an empty registry ends up holding `{Service}_Retry` (3 retries) and `{Service}_CircuitBreaker` (tolerance 5). |
| HttpClientBuilderExtension.HttpClientBuilder.AddPolicyHandlerFromRegistry | Pds.Contracts.Data.Api.Client/Extensions/HttpClientBuilderExtension.cs:40 | Appends one handler key as the innermost handler so far. |
| HttpClientBuilderExtension.AddHttpClientBuilder | Pds.Contracts.Data.Api.Client/Extensions/HttpClientBuilderExtension.cs:38-41 | The new builder has one handler per requested policy, in order. The i-th is `{Service}_{policies[i]}`. |
| HttpClientBuilderExtension.ResolveHandlers | Pds.Contracts.Data.Api.Client/Extensions/HttpClientBuilderExtension.cs:40 | The handlers resolve exactly when every key is registered, to the registered policies in order. |
| HttpClientBuilderExtension.RegisteredPoliciesResolve | Pds.Contracts.Data.Api.Client/Extensions/HttpClientBuilderExtension.cs:38-41 | After AddPolicies completes, any list of policy types for that service resolves, each to the policy built from the options. Every breaker handler refers to the one registered breaker state. |
| HttpClientBuilderExtension.ContractsClientHandlers | Pds.Contracts.Data.Api.Client/Registrations/ServiceCollectionExtensions.cs:34-39 | The contracts client's handlers are the retry policy outside the circuit breaker, with the configured counts. |
| HttpClientBuilderExtension.ResilientTransport.constructor | Pds.Contracts.Data.Api.Client/Extensions/HttpClientBuilderExtension.cs:40 | A client's pipeline takes its counts from the resolved policies. It works on the registered breaker's own state object, shared with every other client built from that entry, and starts with no sends. |
| HttpClientBuilderExtension.ResilientTransport.Send | Pds.Contracts.Data.Api.Client/Extensions/PolicyBuilderExtension.cs:40-52 | The shared breaker state, the send count and the result after a call are those of `RetryOverBreaker` from the state before the call. |
| HttpClientBuilderExtension.RetryOverBreakerBounds | Pds.Contracts.Data.Api.Client/Extensions/PolicyBuilderExtension.cs:40-52 | A call sends at most retry count + 1 times. An open breaker rejects without sending, and a rejection only comes from an open breaker. A delivered reply is the last one sent, and one that is not a handled failure leaves the breaker closed. |
| HttpClientBuilderExtension.NonTransientNotRetried | Pds.Contracts.Data.Api.Client/Extensions/PolicyBuilderExtension.cs:40-41 | A reply that is not a transient failure (not 5xx, not 408, not a network error) is returned after one send and resets the breaker. |
| HttpClientBuilderExtension.RecoversAfterFailures | Pds.Contracts.Data.Api.Client/Extensions/PolicyBuilderExtension.cs:40-52 | k transient failures followed by a good reply take k + 1 sends and return the good reply, provided the retries and the breaker allow them. The breaker ends closed. |
| HttpClientBuilderExtension.PersistentFailure | Pds.Contracts.Data.Api.Client/Extensions/PolicyBuilderExtension.cs:46-52 | Under persistent transient failure, a call either uses all its retries and returns the last failure, or opens the breaker after `tolerance - failures` sends and is rejected. |
| HttpClientBuilderExtension.CreateDummyHandlers | Pds.Contracts.Data.Api.Client.Tests/Unit/HttpClientBuilderExtensionTests.cs:133-149 | The defaults, registered and resolved through the two extensions, give a retry policy with 3 retries and a breaker with tolerance 5. The breaker's state is new and closed. |
| HttpClientBuilderExtension.CreateDummyClient | Pds.Contracts.Data.Api.Client.Tests/Unit/HttpClientBuilderExtensionTests.cs:133-149 | A client on those handlers has 3 retries and tolerance 5, a closed breaker, and no sends. |
| HttpClientBuilderExtension.FirstAttemptSucceeds | Pds.Contracts.Data.Api.Client.Tests/Unit/HttpClientBuilderExtensionTests.cs:23-38 | A 200 is returned after exactly one send. |
| HttpClientBuilderExtension.ServerErrorIsRetried | Pds.Contracts.Data.Api.Client.Tests/Unit/HttpClientBuilderExtensionTests.cs:40-86 | A 500 then a 200 take exactly two sends, and the 200 is returned. |
| HttpClientBuilderExtension.PersistentServerErrorBreaksCircuit | Pds.Contracts.Data.Api.Client.Tests/Unit/HttpClientBuilderExtensionTests.cs:88-109 | With persistent 500s, the first call returns the 500 after four sends. The second call is rejected by the open breaker. There are five sends in all. |
| HttpClientBuilderExtension.ClientsShareTheBreaker | Pds.Contracts.Data.Api.Client/Extensions/HttpClientBuilderExtension.cs:40 | Two clients are built on the same registered handlers. Once persistent 500s through the first client open the breaker, the second client's first call is rejected without a send. |

## Left out

- BaseApiClient is not part of this model. That covers the HTTP exchange, authentication tokens, JSON bodies, URL encoding and the base address. A send is a parameter with three outcomes:
  - a delivered body;
  - an `ApiGeneralException` carrying the status;
  - an exception from the resilience pipeline.
  - `FromPipeline` assumes that the base client treats a 2xx status as success and turns any other status into an `ApiGeneralException`.
- ContractsDataService.ContractByNumberTarget: the request target is modelled as the source interpolates it, before any encoding the base client may apply. So the round trip requires a number without `&`. `AmpersandInNumberSplitsQuery` shows what such a number does to the unencoded query.
- Logging (`LogInformation`, `LogError`) and dependency-injection wiring (`Configure`, `AddHttpClient`, `AddTransient`, `AddSingleton`) are left out.
- The service collection that `AddPolicies` returns unchanged is left out.
- Polly's timing is left out:
  - the exponential backoff (`Math.Pow` on a `double`) between retries;
  - `HttpRetryBackoffPower`;
  - `CircuitBreakerDurationOfBreak`;
  - the half-open state.
  - In the model, an open breaker stays open for the rest of the run.
- Configuration values arrive already converted to `int`. Case-insensitive configuration keys and the conversion of text values are left out.
- `ContractSortOptions` is not among the source files. Only its `LastUpdatedAt` member, the default the client uses, is modelled.
- Exception serialisation constructors, the message-only exception constructors and the client's interface declarations are left out.
- Only the retry-over-breaker order the client configures is given run-time behaviour. Other orders resolve their handlers, but their execution is not modelled.
- A transport exception (`HttpRequestException`) that survives all retries is returned as the reply `HttpRequestError`, not thrown.
