/** The handler in its own imperative form: each operation a method over
    the shared clients, with the source's loops, proved to return and to
    leave the remote state exactly as the corresponding reconciler function
    describes. */
module Lambda {
  import opened Common
  import opened Cfn
  import opened Remote
  import opened Clients
  import Reconcile

  /** `create_target_with_retry`. */
  method CreateTargetWithRetry(cloud: Cloud, gid: string, config: TargetConfig, maxRetries: nat)
    returns (r: Result<string>)
    modifies cloud
    ensures Out(r, cloud.world) == Reconcile.CreateTargetWithRetry(old(cloud.world), gid, config, maxRetries)
  {
    ghost var w0 := cloud.world;
    for attempt := 0 to maxRetries
      invariant Reconcile.RetryFrom(cloud.world, gid, config, attempt, maxRetries)
                == Reconcile.RetryFrom(w0, gid, config, 0, maxRetries)
    {
      r := cloud.CreateTarget(gid, Reconcile.TargetName, config);
      if r.Ok? || !Reconcile.Transient(r.message) {
        return;
      }
      cloud.Sleep(Pow2(attempt));
    }
    r := Err(Reconcile.RetryExhausted(maxRetries));
  }

  /** `create_or_update_target`: a failure of the listing or of the update
      is swallowed and a target is created instead. */
  method CreateOrUpdateTarget(cloud: Cloud, gid: string, config: TargetConfig) returns (r: Result<string>)
    modifies cloud
    ensures Out(r, cloud.world) == Reconcile.CreateOrUpdateTarget(old(cloud.world), gid, config)
  {
    var targets := cloud.ListTargets(gid);
    if targets.Ok? && targets.value != [] {
      var tid := targets.value[0].id;
      var u := cloud.UpdateTarget(gid, tid, Reconcile.TargetName, config);
      if u.Ok? {
        return Ok(tid);
      }
    }
    r := CreateTargetWithRetry(cloud, gid, config, Reconcile.MaxRetries);
  }

  /** `wait_for_gateway_ready`. */
  method WaitForGatewayReady(cloud: Cloud, gid: string, maxWait: nat) returns (r: Result<()>)
    modifies cloud
    ensures Out(r, cloud.world) == Reconcile.WaitForGatewayReady(old(cloud.world), gid, maxWait)
  {
    ghost var w0 := cloud.world;
    var start := cloud.Now();
    var now := start;
    while now - start < maxWait
      invariant now == cloud.world.clock && start <= now
      invariant Reconcile.PollFrom(cloud.world, gid, start, maxWait) == Reconcile.PollFrom(w0, gid, start, maxWait)
      decreases start + maxWait - now
    {
      var g :- cloud.GetGateway(gid);
      if g.status == Ready {
        return Ok(());
      } else if g.status == Failed || g.status == Deleting {
        return Err(Reconcile.UnexpectedStatus(g.status));
      }
      cloud.Sleep(Reconcile.PollInterval);
      now := cloud.Now();
    }
    r := Err(Reconcile.NotReadyInTime(maxWait));
  }

  /** `update_ssm_parameters`. */
  method UpdateSsmParameters(cloud: Cloud, g: Details, targetId: string, props: map<string, string>)
    returns (r: Result<()>)
    modifies cloud
    ensures Out(r, cloud.world) == Reconcile.UpdateSsmParameters(old(cloud.world), g, targetId, props)
  {
    ghost var w0 := cloud.world;
    var prefix :- Lookup(props, "SsmPrefix");
    ghost var writes := Reconcile.SsmWrites(prefix, g, targetId);
    ghost var rest := writes;
    if Reconcile.UrlKnown(g.url) {
      var _ :- cloud.PutParameter(prefix + "/gateway_url", g.url.value);
      rest := writes[1..];
    }
    assert rest == [(prefix + "/target_id", targetId), (prefix + "/gateway_id", g.id)];
    assert Reconcile.PutAll(cloud.world, rest) == Reconcile.PutAll(w0, writes);
    var _ :- cloud.PutParameter(prefix + "/target_id", targetId);
    assert Reconcile.PutAll(cloud.world, rest[1..]) == Reconcile.PutAll(w0, writes);
    var _ :- cloud.PutParameter(prefix + "/gateway_id", g.id);
    assert Reconcile.PutAll(cloud.world, rest[2..]) == Reconcile.PutAll(w0, writes);
    r := Ok(());
  }

  /** `send_response`: build the body and PUT it to the event's ResponseURL. */
  method SendResponse(cloud: Cloud, req: Request, status: ResponseStatus, reason: Option<string>,
                      data: map<string, string>, physicalId: Option<string>) returns (body: Response)
    modifies cloud
    ensures body == ResponseBody(req, status, reason, data, physicalId)
    ensures cloud.world == old(cloud.world).Send(req.responseUrl, body)
  {
    body := ResponseBody(req, status, reason, data, physicalId);
    cloud.Send(req.responseUrl, body);
  }

  /** The tail shared by both create paths and the update: persist the
      parameters, fall back to the constructed URL, answer SUCCESS. */
  method Conclude(cloud: Cloud, req: Request, gid: string, g: Details, targetId: string) returns (r: Result<Response>)
    modifies cloud
    ensures Out(r, cloud.world) == Reconcile.Conclude(old(cloud.world), req, gid, g, targetId)
  {
    var _ :- UpdateSsmParameters(cloud, g, targetId, req.props);
    var url: string;
    if Reconcile.UrlKnown(g.url) {
      url := g.url.value;
    } else {
      var region :- Lookup(req.props, "Region");
      url := Reconcile.FallbackUrl(gid, region);
    }
    var body := SendResponse(cloud, req, SUCCESS, None, Reconcile.Outputs(gid, url, targetId), Some(gid));
    r := Ok(body);
  }

  /** The guarded block of `create_gateway`: the first listed gateway with
      the requested name is adopted. */
  method ReuseExisting(cloud: Cloud, req: Request, name: string, config: TargetConfig)
    returns (r: Result<Option<Response>>)
    modifies cloud
    ensures Out(r, cloud.world) == Reconcile.ReuseExisting(old(cloud.world), req, name, config)
  {
    var items :- cloud.ListGateways();
    for i := 0 to |items|
      invariant forall j :: 0 <= j < i ==> items[j].name != name
    {
      if items[i].name == name {
        assert Reconcile.FirstNamed(items, name) == Some(i);
        var body :- AdoptExisting(cloud, req, items[i].id, config);
        return Ok(Some(body));
      }
    }
    r := Ok(None);
  }

  /** Adopting an existing gateway: read it, reconcile its target, conclude. */
  method AdoptExisting(cloud: Cloud, req: Request, gid: string, config: TargetConfig) returns (r: Result<Response>)
    modifies cloud
    ensures Out(r, cloud.world) == Reconcile.AdoptExisting(old(cloud.world), req, gid, config)
  {
    var g :- cloud.GetGateway(gid);
    var tid :- CreateOrUpdateTarget(cloud, gid, config);
    r := Conclude(cloud, req, gid, g, tid);
  }

  /** The rest of `create_gateway`. */
  method CreateNew(cloud: Cloud, req: Request, inputs: Reconcile.CreateInputs) returns (r: Result<Response>)
    modifies cloud
    ensures Out(r, cloud.world) == Reconcile.CreateNew(old(cloud.world), req, inputs)
  {
    var settings :- Reconcile.GatewaySettingsOf(req.props, inputs.roleArn);
    var gid :- cloud.CreateGateway(inputs.name, settings);
    var _ :- WaitForGatewayReady(cloud, gid, Reconcile.MaxWait);
    var g :- cloud.GetGateway(gid);
    var tid :- CreateTargetWithRetry(cloud, gid, inputs.config, Reconcile.MaxRetries);
    r := Conclude(cloud, req, gid, g, tid);
  }

  /** `create_gateway`: whatever the reuse block raises is swallowed. */
  method CreateGateway(cloud: Cloud, req: Request) returns (r: Result<Response>)
    modifies cloud
    ensures Out(r, cloud.world) == Reconcile.Create(old(cloud.world), req)
  {
    var inputs :- Reconcile.CreateParams(req.props);
    var reuse := ReuseExisting(cloud, req, inputs.name, inputs.config);
    if reuse.Ok? && reuse.value.Some? {
      return Ok(reuse.value.value);
    }
    r := CreateNew(cloud, req, inputs);
  }

  /** The guarded block of `delete_gateway`: delete every listed target,
      pausing after each, then the gateway; the first failure ends it and
      is swallowed. */
  method Teardown(cloud: Cloud, gid: string)
    modifies cloud
    ensures cloud.world == Reconcile.Teardown(old(cloud.world), gid)
  {
    var targets := cloud.ListTargets(gid);
    if targets.Err? {
      return;
    }
    ghost var listed := cloud.world;
    var ts := targets.value;
    for i := 0 to |ts|
      invariant Reconcile.DeleteTargetsThenGateway(cloud.world, gid, ts[i..])
                == Reconcile.DeleteTargetsThenGateway(listed, gid, ts)
    {
      var d := cloud.DeleteTarget(gid, ts[i].id);
      if d.Err? {
        return;
      }
      assert ts[i..][1..] == ts[i + 1..];
      cloud.Sleep(Reconcile.DeletePause);
    }
    var _ := cloud.DeleteGateway(gid);
  }

  /** `delete_gateway`. */
  method DeleteGateway(cloud: Cloud, req: Request) returns (r: Result<Response>)
    modifies cloud
    ensures Out(r, cloud.world) == Reconcile.Delete(old(cloud.world), req)
  {
    if req.physicalId.None? {
      return Err(KeyErrorText("PhysicalResourceId"));
    }
    var gid := req.physicalId.value;
    Teardown(cloud, gid);
    var body := SendResponse(cloud, req, SUCCESS, None, map[], Some(gid));
    r := Ok(body);
  }

  /** `update_gateway`, with a rename tearing the old gateway down without
      answering before the create runs. */
  method UpdateGateway(cloud: Cloud, req: Request) returns (r: Result<Response>)
    modifies cloud
    ensures Out(r, cloud.world) == Reconcile.Update(old(cloud.world), req)
  {
    var inputs :- Reconcile.UpdateParams(req);
    var gid := inputs.gatewayId;
    if Reconcile.Renamed(req) {
      Teardown(cloud, gid);
      r := CreateGateway(cloud, req);
      return;
    }
    var tid :- CreateOrUpdateTarget(cloud, gid, inputs.config);
    var g :- cloud.GetGateway(gid);
    r := Conclude(cloud, req, gid, g, tid);
  }

  /** `handler`: route the event; when the operation raises, answer FAILED
      with the error's message. */
  method Handler(cloud: Cloud, req: Request) returns (body: Response)
    modifies cloud
    ensures Step(body, cloud.world) == Reconcile.Handler(old(cloud.world), req)
  {
    var r: Result<Response>;
    match Route(req.requestType) {
      case Some(CreateOp) => r := CreateGateway(cloud, req);
      case Some(UpdateOp) => r := UpdateGateway(cloud, req);
      case Some(DeleteOp) => r := DeleteGateway(cloud, req);
      case None => r := Err(Reconcile.UnknownRequestType(req.requestType));
    }
    if r.Ok? {
      body := r.value;
    } else {
      body := SendResponse(cloud, req, FAILED, Some(r.message), map[], None);
    }
  }
}
