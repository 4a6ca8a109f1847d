/** The gateway lifecycle reconciler, one function per function of the
    custom-resource handler, each mapping the world before to what the
    handler returns or raises and the world after. The imperative methods of
    module Lambda are proved to compute exactly these. */
module Reconcile {
  import opened Common
  import opened Cfn
  import opened Remote

  /** The name every target this handler creates or updates is given. */
  const TargetName := "GASPAgent"
  /** The default `max_retries` of target creation. */
  const MaxRetries: nat := 5
  /** The default `max_wait` of the readiness poll, in seconds. */
  const MaxWait: nat := 120
  /** The pause between two readiness polls. */
  const PollInterval: nat := 10
  /** The pause after each target deletion. */
  const DeletePause: nat := 5

  /** The error class target creation retries on: the gateway is still
      being created or updated. */
  function Transient(message: string): (r: bool)
    ensures r <==> OccursIn(message, "CREATING") || OccursIn(message, "UPDATING")
  {
    ContainsOccurs(message, "CREATING");
    ContainsOccurs(message, "UPDATING");
    Contains(message, "CREATING") || Contains(message, "UPDATING")
  }

  function RetryExhausted(n: nat): string {
    "Failed to create target after " + Decimal(n) + " attempts"
  }

  function NotReadyInTime(maxWait: nat): string {
    "Gateway not ready after " + Decimal(maxWait) + "s"
  }

  function UnexpectedStatus(s: GatewayStatus): string {
    "Gateway in unexpected status: " + StatusName(s)
  }

  function UnknownRequestType(t: string): string {
    "Unknown request type: " + t
  }

  // ---------------------------------------------------------------------
  // Target creation with retry

  /** `create_target_with_retry` from attempt number `attempt` on: a create
      call per attempt; a transient refusal sleeps 2^attempt and tries
      again, any other error is raised at once, and running out of attempts
      raises RetryExhausted. */
  function RetryFrom(w: World, gid: string, config: TargetConfig, attempt: nat, maxRetries: nat): (r: Out<string>)
    ensures Quiet(w, r.w) && r.w.gateways == w.gateways && r.w.params == w.params
    decreases maxRetries - attempt
  {
    if attempt >= maxRetries then Out(Err(RetryExhausted(maxRetries)), w)
    else
      var o := w.CreateTarget(gid, TargetName, config);
      if o.res.Err? && Transient(o.res.message) then
        RetryFrom(o.w.Sleep(Pow2(attempt)), gid, config, attempt + 1, maxRetries)
      else o
  }

  function CreateTargetWithRetry(w: World, gid: string, config: TargetConfig, maxRetries: nat): (r: Out<string>)
    ensures Quiet(w, r.w) && r.w.gateways == w.gateways && r.w.params == w.params
  {
    RetryFrom(w, gid, config, 0, maxRetries)
  }

  /** `create_or_update_target`: update the first listed target in place,
      or, when there is none or listing or updating raises, create one with
      retry. */
  function CreateOrUpdateTarget(w: World, gid: string, config: TargetConfig): (r: Out<string>)
    ensures Quiet(w, r.w) && r.w.gateways == w.gateways && r.w.params == w.params
  {
    var l := w.ListTargets(gid);
    if l.res.Ok? && l.res.value != [] then
      var tid := l.res.value[0].id;
      var u := l.w.UpdateTarget(gid, tid, TargetName, config);
      if u.res.Ok? then Out(Ok(tid), u.w)
      else CreateTargetWithRetry(u.w, gid, config, MaxRetries)
    else CreateTargetWithRetry(l.w, gid, config, MaxRetries)
  }

  // ---------------------------------------------------------------------
  // Readiness

  /** The readiness poll of a wait that started at time `start`: while less
      than `maxWait` has elapsed, read the gateway; READY ends the wait,
      FAILED or DELETING raise, anything else sleeps PollInterval. */
  function PollFrom(w: World, gid: string, start: nat, maxWait: nat): (r: Out<()>)
    requires start <= w.clock
    ensures Quiet(w, r.w) && r.w.gateways == w.gateways && r.w.targets == w.targets && r.w.params == w.params
    ensures r.res.Ok? ==> r.w.PhaseOf(gid).status == Ready
    decreases start + maxWait - w.clock
  {
    if w.clock - start >= maxWait then Out(Err(NotReadyInTime(maxWait)), w)
    else
      var g :- w.GetGateway(gid);
      var status := g.value.status;
      if status == Ready then Out(Ok(()), g.w)
      else if status == Failed || status == Deleting then Out(Err(UnexpectedStatus(status)), g.w)
      else PollFrom(g.w.Sleep(PollInterval), gid, start, maxWait)
  }

  /** `wait_for_gateway_ready`: the poll, starting now. */
  function WaitForGatewayReady(w: World, gid: string, maxWait: nat): (r: Out<()>)
    ensures Quiet(w, r.w) && r.w.gateways == w.gateways && r.w.targets == w.targets && r.w.params == w.params
    ensures r.res.Ok? ==> r.w.PhaseOf(gid).status == Ready
  {
    PollFrom(w, gid, w.clock, maxWait)
  }

  // ---------------------------------------------------------------------
  // Parameter store and gateway URL

  /** A URL the API reported counts only when it is present and non-empty. */
  predicate UrlKnown(u: Option<string>) {
    u.Some? && u.value != ""
  }

  /** The URL constructed for a gateway whose details carry none. */
  function FallbackUrl(gid: string, region: string): (r: string)
    ensures "https://" + gid + "." <= r
    ensures |r| >= 4 && r[|r| - 4..] == "/mcp"
  {
    "https://" + gid + ".gateway.bedrock-agentcore." + region + ".amazonaws.com/mcp"
  }

  /** The URL reported to the stack: the API's when known, otherwise the
      constructed one, which needs the Region property. */
  function ResolveUrl(reported: Option<string>, gid: string, props: map<string, string>): (r: Result<string>)
    ensures UrlKnown(reported) ==> r == Ok(reported.value)
    ensures !UrlKnown(reported) && "Region" in props ==> r == Ok(FallbackUrl(gid, props["Region"]))
    ensures !UrlKnown(reported) && "Region" !in props ==> r == Err(KeyErrorText("Region"))
  {
    if UrlKnown(reported) then Ok(reported.value)
    else
      var region :- Lookup(props, "Region");
      Ok(FallbackUrl(gid, region))
  }

  /** The parameters `update_ssm_parameters` writes, in order. */
  function SsmWrites(prefix: string, g: Details, targetId: string): (r: seq<(string, string)>)
    ensures |r| == if UrlKnown(g.url) then 3 else 2
    ensures UrlKnown(g.url) ==> r[0] == (prefix + "/gateway_url", g.url.value)
    ensures r[|r| - 2] == (prefix + "/target_id", targetId) && r[|r| - 1] == (prefix + "/gateway_id", g.id)
  {
    (if UrlKnown(g.url) then [(prefix + "/gateway_url", g.url.value)] else [])
    + [(prefix + "/target_id", targetId), (prefix + "/gateway_id", g.id)]
  }

  /** A parameter map after the given writes, each overwriting. */
  function Written(params: map<string, string>, writes: seq<(string, string)>): map<string, string>
    decreases |writes|
  {
    if writes == [] then params else Written(params[writes[0].0 := writes[0].1], writes[1..])
  }

  /** The writes in order, stopping at the first that raises. */
  function PutAll(w: World, writes: seq<(string, string)>): (r: Out<()>)
    ensures Quiet(w, r.w) && r.w.gateways == w.gateways
    ensures r.res.Ok? ==> r.w.params == Written(w.params, writes)
    decreases |writes|
  {
    if writes == [] then Out(Ok(()), w)
    else
      var p :- w.PutParameter(writes[0].0, writes[0].1);
      PutAll(p.w, writes[1..])
  }

  /** `update_ssm_parameters`. */
  function UpdateSsmParameters(w: World, g: Details, targetId: string, props: map<string, string>): (r: Out<()>)
    ensures Quiet(w, r.w) && r.w.gateways == w.gateways
    ensures r.res.Ok? ==> "SsmPrefix" in props
                          && r.w.params == Written(w.params, SsmWrites(props["SsmPrefix"], g, targetId))
  {
    match Lookup(props, "SsmPrefix")
    case Err(m) => Out(Err(m), w)
    case Ok(prefix) => PutAll(w, SsmWrites(prefix, g, targetId))
  }

  /** The Data document of a successful create or update. */
  function Outputs(gid: string, url: string, targetId: string): map<string, string> {
    map["GatewayId" := gid, "GatewayUrl" := url, "TargetId" := targetId]
  }

  /** The tail that create (both paths) and update share: persist the
      parameters, resolve the URL, send SUCCESS with the gateway id as the
      physical id. */
  function Conclude(w: World, req: Request, gid: string, g: Details, targetId: string): (r: Out<Response>)
    ensures r.res.Err? ==> Quiet(w, r.w)
    ensures r.res.Ok? ==> Answered(w, r.w, req.responseUrl, r.res.value)
    ensures r.w.gateways == w.gateways
    ensures r.res.Ok? ==> && r.res.value.status == SUCCESS && r.res.value.physicalId == PhysicalId(req, Some(gid))
                          && ResolveUrl(g.url, gid, req.props).Ok?
                          && r.res.value.data == Outputs(gid, ResolveUrl(g.url, gid, req.props).value, targetId)
    ensures r.res.Ok? ==> "SsmPrefix" in req.props
                          && r.w.params == Written(w.params, SsmWrites(req.props["SsmPrefix"], g, targetId))
  {
    var s :- UpdateSsmParameters(w, g, targetId, req.props);
    match ResolveUrl(g.url, gid, req.props)
    case Err(m) => Out(Err(m), s.w)
    case Ok(url) =>
      var body := ResponseBody(req, SUCCESS, None, Outputs(gid, url, targetId), Some(gid));
      Out(Ok(body), s.w.Send(req.responseUrl, body))
  }

  // ---------------------------------------------------------------------
  // Create

  /** The properties `create_gateway` reads first, in the order it reads
      them. */
  const CreateKeys: seq<string> := ["GatewayName", "LambdaArn", "ApiSpec", "GatewayRoleArn"]

  datatype CreateInputs = CreateInputs(name: string, roleArn: string, config: TargetConfig)

  /** The properties `create_gateway` reads before anything else, in the
      order it reads them. */
  function CreateParams(props: map<string, string>): (r: Result<CreateInputs>)
    ensures r.Err? <==> FirstMissing(props, CreateKeys).Some?
    ensures r.Err? ==> r.message == KeyErrorText(FirstMissing(props, CreateKeys).value)
    ensures r.Ok? ==> && (forall k :: k in CreateKeys ==> k in props)
                      && r.value == CreateInputs(props["GatewayName"], props["GatewayRoleArn"],
                                                 TargetConfig(props["LambdaArn"], props["ApiSpec"]))
  {
    var rest := ["ApiSpec", "GatewayRoleArn"];
    assert CreateKeys[1..][1..] == rest && rest[1..] == ["GatewayRoleArn"];
    assert FirstMissing(props, rest) == if "ApiSpec" !in props then Some("ApiSpec") else FirstMissing(props, rest[1..]);
    var name :- Lookup(props, "GatewayName");
    var arn :- Lookup(props, "LambdaArn");
    var spec :- Lookup(props, "ApiSpec");
    var role :- Lookup(props, "GatewayRoleArn");
    Ok(CreateInputs(name, role, TargetConfig(arn, spec)))
  }

  /** The position of the first listed gateway with the given name. */
  function FirstNamed(items: seq<Gateway>, name: string): (r: Option<nat>)
    ensures r.Some? ==> r.value < |items| && items[r.value].name == name
    ensures r.Some? ==> forall j :: 0 <= j < r.value ==> items[j].name != name
    ensures r.None? <==> !NameTaken(items, name)
  {
    if items == [] then None
    else if items[0].name == name then Some(0)
    else match FirstNamed(items[1..], name)
      case None => None
      case Some(k) => Some(k + 1)
  }

  /** The guarded block of `create_gateway`: list the gateways; when one has
      the requested name, reconcile its target, persist the parameters and
      answer with its id. `Ok(None)`: no gateway has that name. */
  function ReuseExisting(w: World, req: Request, name: string, config: TargetConfig): (r: Out<Option<Response>>)
    ensures r.res.Ok? && r.res.value.Some? ==>
              Answered(w, r.w, req.responseUrl, r.res.value.value) && r.res.value.value.status == SUCCESS
    ensures !(r.res.Ok? && r.res.value.Some?) ==> Quiet(w, r.w)
    ensures r.w.gateways == w.gateways
  {
    var l :- w.ListGateways();
    match FirstNamed(l.value, name)
    case None => Out(Ok(None), l.w)
    case Some(i) =>
      var c :- AdoptExisting(l.w, req, l.value[i].id, config);
      Out(Ok(Some(c.value)), c.w)
  }

  /** The reuse of gateway `gid` found by name: read it, reconcile its
      target, conclude. */
  function AdoptExisting(w: World, req: Request, gid: string, config: TargetConfig): (r: Out<Response>)
    ensures r.res.Err? ==> Quiet(w, r.w)
    ensures r.res.Ok? ==> Answered(w, r.w, req.responseUrl, r.res.value) && r.res.value.status == SUCCESS
    ensures r.w.gateways == w.gateways
  {
    var d :- w.GetGateway(gid);
    var t :- CreateOrUpdateTarget(d.w, gid, config);
    Conclude(t.w, req, gid, d.value, t.value)
  }

  /** The authorizer and role a new gateway is created with. */
  function GatewaySettingsOf(props: map<string, string>, roleArn: string): (r: Result<GatewaySettings>)
    ensures r.Err? <==> FirstMissing(props, ["CognitoClientId", "CognitoDiscoveryUrl"]).Some?
    ensures r.Err? ==> r.message == KeyErrorText(FirstMissing(props, ["CognitoClientId", "CognitoDiscoveryUrl"]).value)
    ensures r.Ok? ==> && "CognitoClientId" in props && "CognitoDiscoveryUrl" in props
                      && r.value == GatewaySettings(roleArn, [props["CognitoClientId"]], props["CognitoDiscoveryUrl"])
  {
    var clientId :- Lookup(props, "CognitoClientId");
    var discovery :- Lookup(props, "CognitoDiscoveryUrl");
    Ok(GatewaySettings(roleArn, [clientId], discovery))
  }

  /** The rest of `create_gateway`: create the gateway, wait until it is
      ready, read it, create its target with retry, then conclude. */
  function CreateNew(w: World, req: Request, inputs: CreateInputs): (r: Out<Response>)
    ensures r.res.Err? ==> Quiet(w, r.w)
    ensures r.res.Ok? ==> Answered(w, r.w, req.responseUrl, r.res.value) && r.res.value.status == SUCCESS
  {
    match GatewaySettingsOf(req.props, inputs.roleArn)
    case Err(m) => Out(Err(m), w)
    case Ok(settings) =>
      var c :- w.CreateGateway(inputs.name, settings);
      var gid := c.value;
      var p :- WaitForGatewayReady(c.w, gid, MaxWait);
      var d :- p.w.GetGateway(gid);
      var t :- CreateTargetWithRetry(d.w, gid, inputs.config, MaxRetries);
      Conclude(t.w, req, gid, d.value, t.value)
  }

  /** `create_gateway`. A failure inside the reuse block is swallowed and
      the handler goes on to create a new gateway. */
  function Create(w: World, req: Request): (r: Out<Response>)
    ensures r.res.Err? ==> Quiet(w, r.w)
    ensures r.res.Ok? ==> Answered(w, r.w, req.responseUrl, r.res.value) && r.res.value.status == SUCCESS
  {
    match CreateParams(req.props)
    case Err(m) => Out(Err(m), w)
    case Ok(inputs) =>
      var reuse := ReuseExisting(w, req, inputs.name, inputs.config);
      if reuse.res.Ok? && reuse.res.value.Some? then Out(Ok(reuse.res.value.value), reuse.w)
      else CreateNew(reuse.w, req, inputs)
  }

  // ---------------------------------------------------------------------
  // Delete

  /** The target deletions of a best-effort teardown, each followed by a
      pause, then the deletion of the gateway; the first failure ends it. */
  function DeleteTargetsThenGateway(w: World, gid: string, ts: seq<Target>): (r: World)
    ensures Quiet(w, r) && r.params == w.params
    decreases |ts|
  {
    if ts == [] then w.DeleteGateway(gid).w
    else
      var d := w.DeleteTarget(gid, ts[0].id);
      if d.res.Err? then d.w
      else DeleteTargetsThenGateway(d.w.Sleep(DeletePause), gid, ts[1..])
  }

  /** The guarded block of `delete_gateway`: list the targets, delete them,
      delete the gateway; whatever fails is swallowed. */
  function Teardown(w: World, gid: string): (r: World)
    ensures Quiet(w, r) && r.params == w.params
  {
    var l := w.ListTargets(gid);
    if l.res.Err? then l.w else DeleteTargetsThenGateway(l.w, gid, l.res.value)
  }

  /** `delete_gateway`: tear down, then answer SUCCESS with the event's
      physical id. */
  function Delete(w: World, req: Request): (r: Out<Response>)
    ensures r.res.Err? ==> Quiet(w, r.w)
    ensures r.res.Ok? ==> Answered(w, r.w, req.responseUrl, r.res.value) && r.res.value.status == SUCCESS
  {
    match req.physicalId
    case None => Out(Err(KeyErrorText("PhysicalResourceId")), w)
    case Some(gid) =>
      var t := Teardown(w, gid);
      var body := ResponseBody(req, SUCCESS, None, map[], Some(gid));
      Out(Ok(body), t.Send(req.responseUrl, body))
  }

  // ---------------------------------------------------------------------
  // Update

  datatype UpdateInputs = UpdateInputs(gatewayId: string, config: TargetConfig)

  /** What `update_gateway` reads first, in order. */
  function UpdateParams(req: Request): (r: Result<UpdateInputs>)
    ensures req.physicalId.None? ==> r == Err(KeyErrorText("PhysicalResourceId"))
    ensures req.physicalId.Some? ==> (r.Err? <==> FirstMissing(req.props, ["LambdaArn", "ApiSpec"]).Some?)
    ensures req.physicalId.Some? && r.Err? ==>
              r.message == KeyErrorText(FirstMissing(req.props, ["LambdaArn", "ApiSpec"]).value)
    ensures r.Ok? ==> && req.physicalId.Some? && "LambdaArn" in req.props && "ApiSpec" in req.props
                      && r.value == UpdateInputs(req.physicalId.value,
                                                 TargetConfig(req.props["LambdaArn"], req.props["ApiSpec"]))
  {
    var gid :- if req.physicalId.Some? then Ok(req.physicalId.value)
               else Err(KeyErrorText("PhysicalResourceId"));
    var arn :- Lookup(req.props, "LambdaArn");
    var spec :- Lookup(req.props, "ApiSpec");
    Ok(UpdateInputs(gid, TargetConfig(arn, spec)))
  }

  /** The old and new GatewayName differ (an absent name counts as a value). */
  function Renamed(req: Request): (r: bool)
    ensures r <==> || ("GatewayName" in req.oldProps) != ("GatewayName" in req.props)
                   || ("GatewayName" in req.oldProps && "GatewayName" in req.props
                       && req.oldProps["GatewayName"] != req.props["GatewayName"])
  {
    Get(req.oldProps, "GatewayName") != Get(req.props, "GatewayName")
  }

  /** An update that keeps the name: reconcile the target of the existing
      gateway, read it, conclude. */
  function UpdateInPlace(w: World, req: Request, inputs: UpdateInputs): (r: Out<Response>)
    ensures r.res.Err? ==> Quiet(w, r.w)
    ensures r.res.Ok? ==> Answered(w, r.w, req.responseUrl, r.res.value) && r.res.value.status == SUCCESS
    ensures r.w.gateways == w.gateways
  {
    var gid := inputs.gatewayId;
    var t :- CreateOrUpdateTarget(w, gid, inputs.config);
    var d :- t.w.GetGateway(gid);
    Conclude(d.w, req, gid, d.value, t.value)
  }

  /** `update_gateway` as the source writes it: on a rename it calls
      `delete_gateway(event)`, which sends a SUCCESS response of its own,
      and then `create_gateway`, which sends another. */
  function UpdateAsWritten(w: World, req: Request): (r: Out<Response>)
    ensures UpdateParams(req).Err? || !Renamed(req) ==> r == Update(w, req)
  {
    match UpdateParams(req)
    case Err(m) => Out(Err(m), w)
    case Ok(inputs) =>
      if Renamed(req) then Create(Delete(w, req).w, req)
      else UpdateInPlace(w, req, inputs)
  }

  /** `update_gateway` with the rename path corrected to tear the old
      gateway down without answering, so that the one response sent is the
      create's. */
  function Update(w: World, req: Request): (r: Out<Response>)
    ensures r.res.Err? ==> Quiet(w, r.w)
    ensures r.res.Ok? ==> Answered(w, r.w, req.responseUrl, r.res.value) && r.res.value.status == SUCCESS
  {
    match UpdateParams(req)
    case Err(m) => Out(Err(m), w)
    case Ok(inputs) =>
      if Renamed(req) then Create(Teardown(w, inputs.gatewayId), req)
      else UpdateInPlace(w, req, inputs)
  }

  // ---------------------------------------------------------------------
  // Handler

  /** The routed operation, before failures are turned into responses. */
  function Dispatch(w: World, req: Request): (r: Out<Response>)
    ensures r.res.Err? ==> Quiet(w, r.w)
    ensures r.res.Ok? ==> Answered(w, r.w, req.responseUrl, r.res.value) && r.res.value.status == SUCCESS
  {
    match Route(req.requestType)
    case Some(CreateOp) => Create(w, req)
    case Some(UpdateOp) => Update(w, req)
    case Some(DeleteOp) => Delete(w, req)
    case None => Out(Err(UnknownRequestType(req.requestType)), w)
  }

  /** `handler`: dispatch, and answer FAILED with the error's message when
      the operation raised. */
  function Handler(w: World, req: Request): (r: Step<Response>)
    ensures Answered(w, r.w, req.responseUrl, r.value)
  {
    var d := Dispatch(w, req);
    match d.res
    case Ok(body) => Step(body, d.w)
    case Err(m) =>
      var body := ResponseBody(req, FAILED, Some(m), map[], None);
      Step(body, d.w.Send(req.responseUrl, body))
  }
}
