# Gateway custom resource, modelled in Dafny

The model covers the stack's custom-resource handler for an AgentCore Gateway,
`infra-cdk/lambdas/gateway-custom-resource/index.py`. The stack engine sends
the handler a lifecycle event: Create, Update or Delete.

- **Create**: the handler adopts the first gateway already listed under the
  requested name. If there is none, it creates a gateway and waits until the
  gateway is READY. Either way it then creates or updates the gateway's single
  target, named "GASPAgent", with exponential-backoff retry. It writes the
  gateway's id, target id and (when reported) URL to the parameter store, and
  answers SUCCESS.
- **Update**: reconciles the existing gateway's target. When the gateway name
  changes, it recreates the gateway instead.
- **Delete**: removes every target and then the gateway. It is best effort and
  always answers SUCCESS.
- **Any raised error** is answered FAILED with the error's message.

The model has four layers:

- `Remote` (remote.dfy): the world outside the handler, as one value.
  - It holds the control plane's gateways (listing order), their phases and
    targets, the parameter store, a clock, and a log of every external call,
    sleep and response sent.
  - Each client call is a function on that value.
  - A script keyed by the call's ordinal decides which calls raise. It also
    decides when the control plane's own processes move a gateway between
    CREATING, READY, FAILED and so on.
  - The control plane refuses a duplicate gateway name, target changes while
    the gateway is not READY, and deleting a gateway that still has targets.
- `Cfn` (cfn.dfy): the event, the response body `send_response` builds, and
  the routing of the request type.
- `Reconcile` (reconcile.dfy): one function per handler function. Each maps
  the world before to the outcome (a value or a raised message) and the world
  after.
- `Clients` and `Lambda` (clients.dfy, lambda.dfy): the handler in the
  source's imperative form.
  - A `Cloud` object holds the remote state, and each client call updates it
    in place.
  - Each handler function is a method with the source's loops: the retry
    `for` loop, the readiness `while` loop, the target-deletion loop and the
    scan of listed gateways.
  - Each method is proved to return and leave exactly what its `Reconcile`
    function describes.

The properties are lemmas about the `Reconcile` functions. They are grouped by
operation in retry_facts.dfy, poll_facts.dfy, ssm_facts.dfy,
delete_facts.dfy, create_facts.dfy, update_facts.dfy and handler_facts.dfy.
Ordering properties use `Traces.Extends(w0, w1, scope)`: the log of `w1` is
that of `w0` followed only by entries the scope allows.

## Model

| member | source | states |
|---|---|---|
| Cfn.ResponseBody | infra-cdk/lambdas/gateway-custom-resource/index.py:463-472 | the body carries the given status and data and the event's stack, request and logical ids; its reason is never empty and is the given reason whenever that is non-empty; its physical id is chosen as `Cfn.PhysicalId` says |
| Cfn.PhysicalId | infra-cdk/lambdas/gateway-custom-resource/index.py:466-467 | a non-empty given id wins, otherwise the event's PhysicalResourceId, otherwise "NONE" |
| Cfn.Route | infra-cdk/lambdas/gateway-custom-resource/index.py:74-81 | a request type selects an operation exactly when it is that operation's name (Create, Update, Delete), and none otherwise |
| Common.ContainsOccurs | infra-cdk/lambdas/gateway-custom-resource/index.py:317 | the substring test used for the retry decision holds exactly when the word occurs at some position of the message |
| Common.FirstMissing | infra-cdk/lambdas/gateway-custom-resource/index.py:108-111 | no key is missing exactly when every key is present; otherwise the key returned is missing and every key before it is present |
| Reconcile.RetryFrom | infra-cdk/lambdas/gateway-custom-resource/index.py:296-324 | the remaining attempts leave the gateway registry and the parameters untouched and send no response; the log only grows and the clock never goes back |
| Reconcile.Transient | infra-cdk/lambdas/gateway-custom-resource/index.py:316-320 | an error is retried exactly when its message contains CREATING or UPDATING at some position |
| Reconcile.CreateTargetWithRetry | infra-cdk/lambdas/gateway-custom-resource/index.py:274-324 | target creation with retry never touches the gateway registry or the parameter store |
| Reconcile.CreateOrUpdateTarget | infra-cdk/lambdas/gateway-custom-resource/index.py:327-368 | the target reconciliation never touches the gateway registry or the parameter store |
| Reconcile.PollFrom | infra-cdk/lambdas/gateway-custom-resource/index.py:387-398 | the poll succeeds only when the gateway's status is READY; it leaves the gateway registry, every target and the parameters untouched and sends no response |
| Reconcile.WaitForGatewayReady | infra-cdk/lambdas/gateway-custom-resource/index.py:371-398 | returning normally means the gateway is READY; the wait changes no gateway, no target and no parameter |
| Reconcile.ResolveUrl | infra-cdk/lambdas/gateway-custom-resource/index.py:172-176 | the reported URL when present and non-empty; otherwise the URL built from the gateway id and the Region property; a KeyError on 'Region' when that property is missing |
| Reconcile.FallbackUrl | infra-cdk/lambdas/gateway-custom-resource/index.py:174-176 | the constructed URL starts with "https://", the gateway id and a dot, and ends with "/mcp" |
| Reconcile.SsmWrites | infra-cdk/lambdas/gateway-custom-resource/index.py:415-435 | three writes when the URL is known, the gateway_url first; two otherwise. The last two are target_id and then gateway_id, under the prefix |
| Reconcile.PutAll | infra-cdk/lambdas/gateway-custom-resource/index.py:419-435 | when every write succeeds the parameters are the old ones overwritten by the writes in order |
| Reconcile.UpdateSsmParameters | infra-cdk/lambdas/gateway-custom-resource/index.py:401-435 | success requires the SsmPrefix property and leaves the parameters overwritten by exactly the writes under that prefix |
| Reconcile.Conclude | infra-cdk/lambdas/gateway-custom-resource/index.py:170-189 | on success exactly one SUCCESS response is sent, after every call, with the gateway id as physical id and data GatewayId, GatewayUrl (resolved) and TargetId, and the parameters written; on failure nothing is sent |
| Reconcile.FirstNamed | infra-cdk/lambdas/gateway-custom-resource/index.py:116-117 | the position of the first listed gateway with the name: it has the name, none before it does, and there is none exactly when no gateway has the name |
| Reconcile.CreateParams | infra-cdk/lambdas/gateway-custom-resource/index.py:108-111 | a KeyError for the first of GatewayName, LambdaArn, ApiSpec and GatewayRoleArn that is missing, in that order; when all are present, exactly their values |
| Reconcile.GatewaySettingsOf | infra-cdk/lambdas/gateway-custom-resource/index.py:148-153 | a KeyError for the first of CognitoClientId and CognitoDiscoveryUrl that is missing; otherwise the role, the one allowed client and the discovery URL from the properties |
| Reconcile.ReuseExisting | infra-cdk/lambdas/gateway-custom-resource/index.py:114-145 | when it adopts a gateway it sends exactly one SUCCESS response; otherwise it sends nothing; it never changes the gateway registry |
| Reconcile.AdoptExisting | infra-cdk/lambdas/gateway-custom-resource/index.py:117-143 | adopting sends one SUCCESS response when it succeeds and none when it raises, and never changes the registry |
| Reconcile.CreateNew | infra-cdk/lambdas/gateway-custom-resource/index.py:147-189 | the fresh-gateway path sends one SUCCESS response when it succeeds and none when it raises |
| Reconcile.Create | infra-cdk/lambdas/gateway-custom-resource/index.py:88-189 | a create sends one SUCCESS response when it succeeds and none when it raises |
| Reconcile.DeleteTargetsThenGateway | infra-cdk/lambdas/gateway-custom-resource/index.py:261-267 | the deletion loop never sends a response and never writes a parameter |
| Reconcile.Teardown | infra-cdk/lambdas/gateway-custom-resource/index.py:258-269 | the guarded teardown never sends a response and never writes a parameter |
| Reconcile.Delete | infra-cdk/lambdas/gateway-custom-resource/index.py:241-271 | a delete sends one SUCCESS response when it succeeds and none when it raises |
| Reconcile.UpdateInPlace | infra-cdk/lambdas/gateway-custom-resource/index.py:219-238 | an update that keeps the name never changes the gateway registry and answers once on success |
| Reconcile.UpdateParams | infra-cdk/lambdas/gateway-custom-resource/index.py:208-210 | a KeyError for a missing PhysicalResourceId first, then for the first missing one of LambdaArn and ApiSpec; otherwise exactly the physical id and those values |
| Reconcile.Renamed | infra-cdk/lambdas/gateway-custom-resource/index.py:211-214 | a rename is when the old and new GatewayName differ, where a name present on one side only counts as a difference |
| Reconcile.UpdateAsWritten | infra-cdk/lambdas/gateway-custom-resource/index.py:192-238 | whenever the properties are missing or the name is unchanged, the update as written behaves exactly as the corrected `Reconcile.Update`; the two differ only on a rename |
| Reconcile.Update | infra-cdk/lambdas/gateway-custom-resource/index.py:192-238 | the corrected update sends one SUCCESS response when it succeeds and none when it raises, on both paths |
| Reconcile.Dispatch | infra-cdk/lambdas/gateway-custom-resource/index.py:73-81 | the routed operation answers once when it succeeds and not at all when it raises |
| Reconcile.Handler | infra-cdk/lambdas/gateway-custom-resource/index.py:51-85 | with the corrected update, every event gets exactly one response, sent last, and it is the one the handler returns |
| RetryFacts.RetryShape | infra-cdk/lambdas/gateway-custom-resource/index.py:296-324 | the run made some number k of rounds, each a create call refused with a transient error (its message contains CREATING or UPDATING) followed by a sleep of 2^i seconds, as the log shows. Either all attempts were used up this way and RetryExhausted is raised with nothing more called, or one more create call ends it: a non-transient error is raised, or the id of the target just appended (named GASPAgent, with the requested configuration) is returned |
| RetryFacts.HardRefusalRaisesAtOnce | infra-cdk/lambdas/gateway-custom-resource/index.py:316-322 | when the first attempt is refused with an error that is not transient, that error is raised after that one call, with no sleep |
| RetryFacts.RetryBudget | infra-cdk/lambdas/gateway-custom-resource/index.py:296-324 | at most `max_retries` create calls. When attempts run out there are exactly that many calls, 2^max_retries - 1 seconds of sleep and "Failed to create target after N attempts"; otherwise the last call is a create and any error returned is not a transient one |
| RetryFacts.BusyRefusalIsTransient | infra-cdk/lambdas/gateway-custom-resource/index.py:317-320 | the control plane's refusal of a target while the gateway is CREATING or UPDATING carries that word, so it is retried |
| RetryFacts.RetryWithin | infra-cdk/lambdas/gateway-custom-resource/index.py:296-324 | the retry makes only create-target calls on the given gateway, and sleeps |
| RetryFacts.UpdatesFirstTarget | infra-cdk/lambdas/gateway-custom-resource/index.py:344-364 | when listing and updating succeed, the first listed target's id is returned, only that target changes (to GASPAgent with the new configuration), and exactly those two calls are made |
| RetryFacts.FallsBackToCreate | infra-cdk/lambdas/gateway-custom-resource/index.py:344-368 | a failed listing, an empty listing or a failed update all continue with create-with-retry from the state reached |
| RetryFacts.CreateOrUpdateWithin | infra-cdk/lambdas/gateway-custom-resource/index.py:327-368 | the reconciliation first lists the given gateway's targets; after that it makes only create or update calls on that gateway's targets, and sleeps |
| PollFacts.PollShape | infra-cdk/lambdas/gateway-custom-resource/index.py:386-398 | the poll made n rounds, each a served read that saw a status other than READY, FAILED and DELETING, then a 10-second sleep; each read began before the deadline and the clock advanced 10n. The wait then ends either past the deadline with "Gateway not ready after Ns" and nothing more called, or with one more read that decides it: a refused read raises its error; a served one returns exactly when the status is READY and otherwise raises "Gateway in unexpected status" for FAILED or DELETING |
| PollFacts.PollBudget | infra-cdk/lambdas/gateway-custom-resource/index.py:386-398 | the number of reads times 10 stays below max_wait + 10, and the wait ends before max_wait + 10 seconds have passed; with the default 120 seconds there are at most 12 reads |
| PollFacts.PollWithin | infra-cdk/lambdas/gateway-custom-resource/index.py:387-396 | the wait makes only reads of the given gateway, and sleeps |
| SsmFacts.SsmOutcome | infra-cdk/lambdas/gateway-custom-resource/index.py:415-435 | after the writes, target_id and gateway_id hold the new values, gateway_url holds the reported URL when there is one and keeps its old value otherwise, and every other parameter is unchanged |
| SsmFacts.ConcludeUrl | infra-cdk/lambdas/gateway-custom-resource/index.py:170-189 | the answer's GatewayId and TargetId are the gateway's and the target's; its GatewayUrl is the reported URL, also stored, or else the URL built from the Region, which is never stored |
| SsmFacts.PutAllWithin | infra-cdk/lambdas/gateway-custom-resource/index.py:419-435 | the parameter writes make only parameter-store writes: no other call and no sleep |
| SsmFacts.ConcludeWithin | infra-cdk/lambdas/gateway-custom-resource/index.py:170-189 | concluding makes only parameter-store writes: no other call and no sleep |
| DeleteFacts.PlanEndsWithGateway | infra-cdk/lambdas/gateway-custom-resource/index.py:261-267 | in the deletion plan the gateway deletion is the last entry and appears nowhere else |
| DeleteFacts.LoopShape | infra-cdk/lambdas/gateway-custom-resource/index.py:261-267 | the deletion loop serves some number j of target deletions in listing order, each followed by a 5-second pause. Then either the next target deletion is refused, the loop stops there and the gateway is still registered, or every target was deleted and the gateway deletion is made. Its log is the first 2j + 1 entries of the plan |
| DeleteFacts.TeardownOrder | infra-cdk/lambdas/gateway-custom-resource/index.py:258-269 | a refused listing is the only call the teardown makes and leaves the registry as it was; otherwise the loop over exactly the listed targets stops at its first refused call, as `LoopShape` says. The log is the target listing followed by a prefix of the plan; when it ends with the gateway deletion, every listed target was deleted before it |
| DeleteFacts.LoopFaultFreeTrace | infra-cdk/lambdas/gateway-custom-resource/index.py:261-267 | with no call failing, the deletion loop logs the whole plan |
| DeleteFacts.LoopFaultFreeRemoves | infra-cdk/lambdas/gateway-custom-resource/index.py:261-267 | with no call failing, the deletion loop leaves the gateway without targets, removes it from the registry, and takes 5 seconds per target |
| DeleteFacts.TeardownFaultFree | infra-cdk/lambdas/gateway-custom-resource/index.py:258-267 | with no call failing, the teardown lists, deletes every target in listing order with a pause after each, then deletes the gateway, which leaves the registry |
| DeleteFacts.DeleteAlwaysSucceeds | infra-cdk/lambdas/gateway-custom-resource/index.py:256-271 | a delete succeeds exactly when the event has a physical id, answering SUCCESS with that id and no data, whatever the teardown met |
| DeleteFacts.TeardownWithin | infra-cdk/lambdas/gateway-custom-resource/index.py:258-269 | the teardown only lists and deletes the targets of the event's gateway, deletes that gateway and sleeps |
| CreateFacts.ReuseFacts | infra-cdk/lambdas/gateway-custom-resource/index.py:114-143 | when the reuse block answers, it answers for the first listed gateway with the name; when it finds none, no gateway has that name |
| CreateFacts.AdoptAnswers | infra-cdk/lambdas/gateway-custom-resource/index.py:117-143 | the adopted gateway's id is both the answer's GatewayId and its physical id |
| CreateFacts.ConcludeAnswers | infra-cdk/lambdas/gateway-custom-resource/index.py:180-189 | a successful conclusion answers SUCCESS with the gateway's id as GatewayId and physical id |
| CreateFacts.ReuseScope | infra-cdk/lambdas/gateway-custom-resource/index.py:114-145 | the reuse block never creates or deletes a gateway |
| CreateFacts.AdoptScope | infra-cdk/lambdas/gateway-custom-resource/index.py:117-143 | adopting first reads the gateway, and a refused read ends it. Otherwise it lists the gateway's targets once, then makes only create or update calls on that gateway's targets and sleeps (one reconciliation, no gateway read, so no readiness wait), then only parameter-store writes. It never creates a gateway |
| CreateFacts.CreateNewFacts | infra-cdk/lambdas/gateway-custom-resource/index.py:147-189 | a successful fresh create found the name free, appended exactly one gateway (the minted id, the requested name), and answers with that id |
| CreateFacts.CreateNewStartsWithCreate | infra-cdk/lambdas/gateway-custom-resource/index.py:147-162 | the fresh path's first call is create_gateway with the requested name and the authorizer settings taken from the properties |
| CreateFacts.ReuseFailureSwallowed | infra-cdk/lambdas/gateway-custom-resource/index.py:113-145 | when the reuse block raises, the error is swallowed and creation goes on from the state it left, with create_gateway as the next call; a refused listing makes the block raise after that one call |
| CreateFacts.CreateOutcome | infra-cdk/lambdas/gateway-custom-resource/index.py:88-189 | a successful create answers for the first gateway under the name. If the name was taken, the registry is unchanged and no gateway is created; if it was free, exactly the answered gateway is appended |
| CreateFacts.ReuseFailureNotMasked | infra-cdk/lambdas/gateway-custom-resource/index.py:144-162 | when the name is taken and the swallowed reuse block raised, the create raises instead of producing a second gateway with that name |
| CreateFacts.CreateIdempotent | infra-cdk/lambdas/gateway-custom-resource/index.py:114-143 | a repeated create over the registry the first left answers with the same GatewayId and physical id |
| UpdateFacts.UpdateKeepsGateway | infra-cdk/lambdas/gateway-custom-resource/index.py:219-238 | an update that keeps the name leaves the registry as it was. It lists the gateway's targets once, then makes only create or update calls on that gateway's targets and sleeps (one reconciliation, no readiness wait); if that succeeds, one read of the gateway, then only parameter-store writes. It answers with the event's physical id |
| UpdateFacts.RenameDeletesFirst | infra-cdk/lambdas/gateway-custom-resource/index.py:214-217 | on a rename the old gateway's teardown comes first and touches only that gateway; the create follows and answers for the first gateway under the new name |
| UpdateFacts.RenameAsWrittenAnswersTwice | infra-cdk/lambdas/gateway-custom-resource/index.py:214-217 | as written, a rename first answers SUCCESS for the old gateway with no data, and the event then gets a second response, the create's or the handler's FAILED |
| UpdateFacts.UpdateAnswersOnce | infra-cdk/lambdas/gateway-custom-resource/index.py:192-238 | the corrected update leaves exactly one response per event, counting the handler's FAILED |
| HandlerFacts.HandlerOutcome | infra-cdk/lambdas/gateway-custom-resource/index.py:73-85 | the answer is SUCCESS exactly when the routed operation completed, and is then its answer; otherwise it is FAILED with the error's message, no data and the event's physical id; one response either way |
| HandlerFacts.UnknownTypeRejected | infra-cdk/lambdas/gateway-custom-resource/index.py:80-85 | an unknown request type makes no call, changes nothing, and is answered FAILED with "Unknown request type: ..." |
| Lambda.CreateTargetWithRetry | infra-cdk/lambdas/gateway-custom-resource/index.py:296-324 | the `for` loop over attempts returns and leaves the state exactly as `Reconcile.CreateTargetWithRetry` |
| Lambda.CreateOrUpdateTarget | infra-cdk/lambdas/gateway-custom-resource/index.py:344-368 | exactly as `Reconcile.CreateOrUpdateTarget` |
| Lambda.WaitForGatewayReady | infra-cdk/lambdas/gateway-custom-resource/index.py:386-398 | the `while` loop on elapsed time returns and leaves the state exactly as `Reconcile.WaitForGatewayReady` |
| Lambda.UpdateSsmParameters | infra-cdk/lambdas/gateway-custom-resource/index.py:415-435 | the three ordered writes, exactly as `Reconcile.UpdateSsmParameters` |
| Lambda.SendResponse | infra-cdk/lambdas/gateway-custom-resource/index.py:463-484 | returns `Cfn.ResponseBody` and appends that one response to the log |
| Lambda.Conclude | infra-cdk/lambdas/gateway-custom-resource/index.py:170-189 | exactly as `Reconcile.Conclude` |
| Lambda.ReuseExisting | infra-cdk/lambdas/gateway-custom-resource/index.py:114-145 | the scan of the listed gateways, exactly as `Reconcile.ReuseExisting` |
| Lambda.AdoptExisting | infra-cdk/lambdas/gateway-custom-resource/index.py:117-143 | exactly as `Reconcile.AdoptExisting` |
| Lambda.CreateNew | infra-cdk/lambdas/gateway-custom-resource/index.py:147-189 | exactly as `Reconcile.CreateNew` |
| Lambda.CreateGateway | infra-cdk/lambdas/gateway-custom-resource/index.py:88-189 | exactly as `Reconcile.Create` |
| Lambda.Teardown | infra-cdk/lambdas/gateway-custom-resource/index.py:258-269 | the loop over the listed targets, exactly as `Reconcile.Teardown` |
| Lambda.DeleteGateway | infra-cdk/lambdas/gateway-custom-resource/index.py:241-271 | exactly as `Reconcile.Delete` |
| Lambda.UpdateGateway | infra-cdk/lambdas/gateway-custom-resource/index.py:192-238 | the corrected update, exactly as `Reconcile.Update` |
| Lambda.Handler | infra-cdk/lambdas/gateway-custom-resource/index.py:51-85 | exactly as `Reconcile.Handler`, so with the corrected update |

## Left out

- The boto3 control-plane and parameter-store clients are replaced by `Remote.World`.
  - How the real service decides refusals and status changes is not known here. The scripted fates and the refusals listed above stand in for it.
  - Pagination of the listings is not modelled: each listing returns every item.
- The HTTP PUT in `send_response` is a log entry in `World.replies`. A PUT that fails, and the exception that would then escape the reuse block or the handler, are not modelled.
- `time.time()` and `time.sleep()` become the world's clock, which only sleeps advance.
  - API calls take no time in the model, so the readiness deadline is reached only through the 10-second pauses.
- `json.loads` of ApiSpec is not modelled: the text is kept as it is, and a malformed spec never raises.
- The constant parts of the requests are not modelled: descriptions, protocol and authorizer types, and the credential-provider document. The authorizer settings that come from properties are modelled (`Remote.GatewaySettings`).
- The KeyErrors raised before the `try` in `handler` (missing RequestType or ResourceProperties) are not modelled; a `Cfn.Request` always has both.
- Logging is not modelled.
- patterns/strands-single-agent/code_interpreter_tools.py is not part of this model.
- A gateway with no recorded phase is READY with no URL, and the control plane refuses duplicate gateway names. These are assumptions about the service.
- RetryFacts.BusyRefusalIsTransient: states only that the control plane's own not-ready refusal is retried. Other messages containing CREATING or UPDATING are covered by `Reconcile.Transient` itself.
- Reconcile.FallbackUrl: the contract gives the scheme, the leading gateway id and the /mcp path; the fixed middle of the host and the Region in it are given by its definition only.
- DeleteFacts.TeardownFaultFree: states the full ordering only when no call fails. When one does, DeleteFacts.TeardownOrder gives the prefix.

## Findings

| source | as written | input that shows it | evidently intended | confidence | as-written member | corrected member |
|---|---|---|---|---|---|---|
| infra-cdk/lambdas/gateway-custom-resource/index.py:214-217 | on a rename, `update_gateway` calls `delete_gateway(event)`, which sends its own SUCCESS response (old physical id, no data), and then `create_gateway`, which sends a second response; if the create raises, the handler sends FAILED after the SUCCESS | an Update event whose OldResourceProperties GatewayName differs from ResourceProperties GatewayName | tear the old gateway down without answering, so that the event gets one response, the create's (or the handler's FAILED) | not executed | Reconcile.UpdateAsWritten, UpdateFacts.RenameAsWrittenAnswersTwice | Reconcile.Update, UpdateFacts.UpdateAnswersOnce |
