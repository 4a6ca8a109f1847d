/** Properties of `create_gateway`: a gateway that already has the
    requested name is reused, without a create call; otherwise a new one is
    minted and appended to the registry; either way the answered gateway is
    the first one registered under that name, so creating twice answers
    with the same gateway. */
module CreateFacts {
  import opened Common
  import opened Cfn
  import opened Remote
  import opened Reconcile
  import opened Traces
  import opened RetryFacts
  import opened PollFacts
  import opened SsmFacts

  /** A name not yet in the registry is first found at the gateway
      appended under it. */
  lemma FirstNamedAppend(gs: seq<Gateway>, id: string, name: string)
    requires !NameTaken(gs, name)
    ensures FirstNamed(gs + [Gateway(id, name)], name) == Some(|gs|)
  {
    var all := gs + [Gateway(id, name)];
    assert all[|gs|].name == name;
    var r := FirstNamed(all, name);
  }

  /** The answer a create or update sends for gateway `gid`. */
  ghost predicate AnswersFor(req: Request, body: Response, gid: string) {
    && body.status == SUCCESS
    && "GatewayId" in body.data && body.data["GatewayId"] == gid
    && body.physicalId == PhysicalId(req, Some(gid))
  }

  /** The reuse block, when it answers: the gateway it answers for is the
      first listed under the name. When it finds no such gateway it answers
      nothing and the name is free. */
  lemma ReuseFacts(w: World, req: Request, name: string, config: TargetConfig)
    ensures var r := ReuseExisting(w, req, name, config);
            r.res.Ok? && r.res.value.Some? ==>
              && FirstNamed(w.gateways, name).Some?
              && AnswersFor(req, r.res.value.value, w.gateways[FirstNamed(w.gateways, name).value].id)
    ensures var r := ReuseExisting(w, req, name, config);
            r.res.Ok? && r.res.value.None? ==> !NameTaken(w.gateways, name)
  {
    var l := w.ListGateways();
    if l.res.Ok? && FirstNamed(l.res.value, name).Some? {
      AdoptAnswers(l.w, req, l.res.value[FirstNamed(l.res.value, name).value].id, config);
    }
  }

  /** Adopting gateway `gid` answers for it. */
  lemma AdoptAnswers(w: World, req: Request, gid: string, config: TargetConfig)
    ensures var r := AdoptExisting(w, req, gid, config);
            r.res.Ok? ==> AnswersFor(req, r.res.value, gid)
  {
    var d := w.GetGateway(gid);
    if d.res.Ok? {
      var t := CreateOrUpdateTarget(d.w, gid, config);
      if t.res.Ok? {
        ConcludeAnswers(t.w, req, gid, d.res.value, t.res.value);
      }
    }
  }

  lemma ConcludeAnswers(w: World, req: Request, gid: string, g: Details, tid: string)
    ensures var c := Conclude(w, req, gid, g, tid);
            c.res.Ok? ==> AnswersFor(req, c.res.value, gid)
  {
  }

  /** The reuse block, whatever its outcome, calls nothing that creates or
      deletes a gateway. */
  lemma ReuseScope(w: World, req: Request, name: string, config: TargetConfig)
    ensures Extends(w, ReuseExisting(w, req, name, config).w, Inspection)
  {
    var l := w.ListGateways();
    ExtendsByCall(w, l.w, Call.ListGateways, Inspection);
    if l.res.Ok? && FirstNamed(l.res.value, name).Some? {
      var gid := l.res.value[FirstNamed(l.res.value, name).value].id;
      AdoptScope(l.w, req, gid, config);
      ExtendsWiden(l.w, AdoptExisting(l.w, req, gid, config).w, TargetWork, Inspection);
      ExtendsTrans(w, l.w, AdoptExisting(l.w, req, gid, config).w, Inspection);
    }
  }

  /** Adopting a gateway reads it once, as its first call, and makes no
      other read of it, so it never waits for readiness. After the read
      come the one target reconciliation (a listing of the gateway's
      targets, then only target writes and sleeps) and then only
      parameter writes. */
  lemma AdoptScope(w: World, req: Request, gid: string, config: TargetConfig)
    ensures var d := w.GetGateway(gid);
            var r := AdoptExisting(w, req, gid, config);
            && d.w.trace == w.trace + [Api(GetGateway(gid))]
            && (d.res.Err? ==> r.w.trace == d.w.trace)
            && (d.res.Ok? ==> var l := d.w.ListTargets(gid);
                              var t := CreateOrUpdateTarget(d.w, gid, config);
                              && l.w.trace == d.w.trace + [Api(ListTargets(gid))]
                              && Extends(l.w, t.w, Revising(gid))
                              && Extends(t.w, r.w, Storing))
            && Extends(w, r.w, TargetWork)
  {
    var d := w.GetGateway(gid);
    var r := AdoptExisting(w, req, gid, config);
    ExtendsByCall(w, d.w, Call.GetGateway(gid), TargetWork);
    if d.res.Ok? {
      var t := CreateOrUpdateTarget(d.w, gid, config);
      CreateOrUpdateWithin(d.w, gid, config);
      if t.res.Ok? {
        ConcludeWithin(t.w, req, gid, d.res.value, t.res.value);
      } else {
        ExtendsRefl(t.w, r.w, Storing);
      }
      AdoptTail(w, d.w, t.w, r.w, gid);
    }
  }

  lemma AdoptTail(w: World, w1: World, w2: World, w3: World, gid: string)
    requires Extends(w, w1, TargetWork) && Extends(w1, w2, Reconciling(gid)) && Extends(w2, w3, Storing)
    ensures Extends(w, w3, TargetWork)
  {
    ExtendsWiden(w1, w2, Reconciling(gid), TargetWork);
    ExtendsWiden(w2, w3, Storing, TargetWork);
    ExtendsTrans(w1, w2, w3, TargetWork);
    ExtendsTrans(w, w1, w3, TargetWork);
  }

  /** A new gateway, when its creation answers: the name was free, the
      gateway is minted from the registry's serial and appended to the
      registry, and it is the one answered for. */
  lemma CreateNewFacts(w: World, req: Request, inputs: CreateInputs)
    ensures var r := CreateNew(w, req, inputs);
            r.res.Ok? ==>
              && !NameTaken(w.gateways, inputs.name)
              && r.w.gateways == w.gateways + [Gateway(MintedGatewayId(w.serial), inputs.name)]
              && AnswersFor(req, r.res.value, MintedGatewayId(w.serial))
              && Extends(w, r.w, Construction)
  {
    var r := CreateNew(w, req, inputs);
    if r.res.Ok? {
      var settings := GatewaySettingsOf(req.props, inputs.roleArn).value;
      var c := w.CreateGateway(inputs.name, settings);
      var gid := c.res.value;
      var p := WaitForGatewayReady(c.w, gid, MaxWait);
      var d := p.w.GetGateway(gid);
      var t := CreateTargetWithRetry(d.w, gid, inputs.config, MaxRetries);
      assert r == Conclude(t.w, req, gid, d.res.value, t.res.value);
      ConcludeAnswers(t.w, req, gid, d.res.value, t.res.value);
      NewWithin(w, c.w, p.w, d.w, t.w, r.w, inputs.name, settings, gid, inputs.config, req, d.res.value, t.res.value);
    }
  }

  lemma NewWithin(w: World, w1: World, w2: World, w3: World, w4: World, w5: World,
                  name: string, settings: GatewaySettings, gid: string, config: TargetConfig,
                  req: Request, g: Details, tid: string)
    requires Logged(w, w1, Call.CreateGateway(name, settings))
    requires w2 == WaitForGatewayReady(w1, gid, MaxWait).w
    requires Logged(w2, w3, Call.GetGateway(gid))
    requires w4 == CreateTargetWithRetry(w3, gid, config, MaxRetries).w
    requires w5 == Conclude(w4, req, gid, g, tid).w
    ensures Extends(w, w5, Construction)
  {
    ExtendsByCall(w, w1, Call.CreateGateway(name, settings), Construction);
    PollWithin(w1, gid, w1.clock, MaxWait);
    ExtendsWiden(w1, w2, Polling(gid), TargetWork);
    ExtendsByCall(w2, w3, Call.GetGateway(gid), TargetWork);
    ExtendsTrans(w1, w2, w3, TargetWork);
    RetryWithin(w3, gid, config, 0, MaxRetries);
    ExtendsWiden(w3, w4, Retrying(gid), TargetWork);
    ExtendsTrans(w1, w3, w4, TargetWork);
    ConcludeWithin(w4, req, gid, g, tid);
    ExtendsWiden(w4, w5, Storing, TargetWork);
    ExtendsTrans(w1, w4, w5, TargetWork);
    ExtendsWiden(w1, w5, TargetWork, Construction);
    ExtendsTrans(w, w1, w5, Construction);
  }

  /** The fresh-gateway path, whatever its outcome, starts with the
      creation of the gateway under the requested name with the settings
      read from the properties. */
  lemma CreateNewStartsWithCreate(w: World, req: Request, inputs: CreateInputs, settings: GatewaySettings)
    requires GatewaySettingsOf(req.props, inputs.roleArn) == Ok(settings)
    ensures var r := CreateNew(w, req, inputs);
            |w.trace| < |r.w.trace| && r.w.trace[|w.trace|] == Api(CreateGateway(inputs.name, settings))
  {
    var c := w.CreateGateway(inputs.name, settings);
    if c.res.Ok? {
      NewTail(c.w, req, inputs, c.res.value);
      EntryKept(w, c.w, CreateNew(w, req, inputs).w, TargetWork);
    }
  }

  /** What follows the creation of gateway `gid` makes only reads, target
      calls, parameter writes and sleeps. */
  lemma NewTail(w1: World, req: Request, inputs: CreateInputs, gid: string)
    ensures var p := WaitForGatewayReady(w1, gid, MaxWait);
            var d := p.w.GetGateway(gid);
            var t := CreateTargetWithRetry(d.w, gid, inputs.config, MaxRetries);
            var w5 := if p.res.Err? then p.w else if d.res.Err? then d.w else if t.res.Err? then t.w
                      else Conclude(t.w, req, gid, d.res.value, t.res.value).w;
            Extends(w1, w5, TargetWork)
  {
    var p := WaitForGatewayReady(w1, gid, MaxWait);
    PollWithin(w1, gid, w1.clock, MaxWait);
    ExtendsWiden(w1, p.w, Polling(gid), TargetWork);
    if p.res.Ok? {
      var d := p.w.GetGateway(gid);
      ExtendsByCall(p.w, d.w, Call.GetGateway(gid), TargetWork);
      ExtendsTrans(w1, p.w, d.w, TargetWork);
      if d.res.Ok? {
        var t := CreateTargetWithRetry(d.w, gid, inputs.config, MaxRetries);
        RetryWithin(d.w, gid, inputs.config, 0, MaxRetries);
        ExtendsWiden(d.w, t.w, Retrying(gid), TargetWork);
        ExtendsTrans(w1, d.w, t.w, TargetWork);
        if t.res.Ok? {
          var c := Conclude(t.w, req, gid, d.res.value, t.res.value);
          ConcludeWithin(t.w, req, gid, d.res.value, t.res.value);
          ExtendsWiden(t.w, c.w, Storing, TargetWork);
          ExtendsTrans(w1, t.w, c.w, TargetWork);
        }
      }
    }
  }

  /** `create_gateway` when it answers: the gateway answered for is the
      first one registered under the requested name afterwards; when that
      name was already registered, it is the existing gateway, the registry
      is unchanged and no gateway was created; when it was free, the
      answered gateway was appended to the registry under it. */
  lemma CreateOutcome(w: World, req: Request, inputs: CreateInputs)
    requires CreateParams(req.props) == Ok(inputs)
    ensures var r := Create(w, req);
            r.res.Ok? ==>
              && FirstNamed(r.w.gateways, inputs.name).Some?
              && AnswersFor(req, r.res.value, r.w.gateways[FirstNamed(r.w.gateways, inputs.name).value].id)
              && Extends(w, r.w, Construction)
    ensures var r := Create(w, req);
            r.res.Ok? && NameTaken(w.gateways, inputs.name) ==>
              && r.w.gateways == w.gateways
              && AnswersFor(req, r.res.value, w.gateways[FirstNamed(w.gateways, inputs.name).value].id)
              && Extends(w, r.w, Inspection)
    ensures var r := Create(w, req);
            r.res.Ok? && !NameTaken(w.gateways, inputs.name) ==>
              r.w.gateways == w.gateways + [Gateway(r.res.value.data["GatewayId"], inputs.name)]
  {
    var r := Create(w, req);
    var reuse := ReuseExisting(w, req, inputs.name, inputs.config);
    ReuseFacts(w, req, inputs.name, inputs.config);
    ReuseScope(w, req, inputs.name, inputs.config);
    if reuse.res.Ok? && reuse.res.value.Some? {
      ExtendsWiden(w, r.w, Inspection, Construction);
    } else if r.res.Ok? {
      CreateNewFacts(reuse.w, req, inputs);
      FirstNamedAppend(w.gateways, MintedGatewayId(reuse.w.serial), inputs.name);
      ExtendsWiden(w, reuse.w, Inspection, Construction);
      ExtendsTrans(w, reuse.w, r.w, Construction);
    }
  }

  /** A failure anywhere in the reuse block is swallowed: `create_gateway`
      goes on with a fresh creation from the state the block left, whose
      next call creates a gateway under the requested name. A refused
      listing is such a failure, and then that creation directly follows
      the listing. */
  lemma ReuseFailureSwallowed(w: World, req: Request, inputs: CreateInputs, settings: GatewaySettings)
    requires CreateParams(req.props) == Ok(inputs) && GatewaySettingsOf(req.props, inputs.roleArn) == Ok(settings)
    ensures var reuse := ReuseExisting(w, req, inputs.name, inputs.config);
            var r := Create(w, req);
            reuse.res.Err? ==> && r == CreateNew(reuse.w, req, inputs)
                               && |reuse.w.trace| < |r.w.trace|
                               && r.w.trace[|reuse.w.trace|] == Api(CreateGateway(inputs.name, settings))
    ensures var reuse := ReuseExisting(w, req, inputs.name, inputs.config);
            w.Faulted() ==> reuse.res.Err? && reuse.w.trace == w.trace + [Api(Call.ListGateways)]
  {
    var reuse := ReuseExisting(w, req, inputs.name, inputs.config);
    CreateNewStartsWithCreate(reuse.w, req, inputs, settings);
  }

  /** When the name is registered but the reuse block raised, the creation
      of a new gateway it falls through to is refused: the failure is
      swallowed, but `create_gateway` still raises. */
  lemma ReuseFailureNotMasked(w: World, req: Request, inputs: CreateInputs)
    requires CreateParams(req.props) == Ok(inputs) && NameTaken(w.gateways, inputs.name)
    requires ReuseExisting(w, req, inputs.name, inputs.config).res.Err?
    ensures Create(w, req).res.Err?
  {
    var reuse := ReuseExisting(w, req, inputs.name, inputs.config);
    CreateNewFacts(reuse.w, req, inputs);
  }

  /** Creating twice with the same properties answers with the same
      gateway and the same physical id, provided the registry the second
      create sees is the one the first left. */
  lemma CreateIdempotent(w1: World, w2: World, req: Request, inputs: CreateInputs)
    requires CreateParams(req.props) == Ok(inputs)
    requires Create(w1, req).res.Ok? && w2.gateways == Create(w1, req).w.gateways
    requires Create(w2, req).res.Ok?
    ensures Get(Create(w2, req).res.value.data, "GatewayId") == Get(Create(w1, req).res.value.data, "GatewayId")
    ensures Get(Create(w1, req).res.value.data, "GatewayId").Some?
    ensures Create(w2, req).res.value.physicalId == Create(w1, req).res.value.physicalId
  {
    CreateOutcome(w1, req, inputs);
    CreateOutcome(w2, req, inputs);
  }
}
