/** The world outside the handler, as one value: the gateway control plane
    with its gateways and their targets, the parameter store, the clock, and
    a log of every external call, sleep and callback delivery.

    The control plane keeps its gateways in listing order, and beside them
    each gateway's lifecycle phase (status and published URL) and its
    targets, keyed by gateway id.

    Failures and the control plane's own progress are decided by a script
    keyed by the ordinal of each external call: `Fail(m)` makes that call
    raise with message `m`; `Report(s, u)` says that, before that call is
    served, the control plane's own processes moved the gateway the call names
    to status `s` with published URL `u`. Unscripted calls are served from
    the current state alone. */
module Remote {
  import opened Common
  import opened Cfn

  datatype GatewayStatus = Creating | Updating | Ready | Failed | Deleting

  function StatusName(s: GatewayStatus): string {
    match s
    case Creating => "CREATING"
    case Updating => "UPDATING"
    case Ready => "READY"
    case Failed => "FAILED"
    case Deleting => "DELETING"
  }

  /** What a target runs: a Lambda function and the tool schema it serves
      (the ApiSpec document, kept opaque). */
  datatype TargetConfig = TargetConfig(lambdaArn: string, toolSchema: string)

  datatype Target = Target(id: string, name: string, config: TargetConfig)

  /** A gateway as `list_gateways` lists it. */
  datatype Gateway = Gateway(id: string, name: string)

  /** Where a gateway is in its lifecycle: its status and the gatewayUrl the
      API reports for it, if any. */
  datatype Phase = Phase(status: GatewayStatus, url: Option<string>)

  /** What `get_gateway` returns. */
  datatype Details = Details(id: string, name: string, status: GatewayStatus, url: Option<string>)

  /** The settings a gateway is created with: its role and its custom JWT
      authorizer. */
  datatype GatewaySettings = GatewaySettings(roleArn: string, allowedClients: seq<string>,
                                             discoveryUrl: string)

  /** One request to the control plane or to the parameter store. */
  datatype Call =
    | ListGateways
    | GetGateway(gatewayId: string)
    | CreateGateway(name: string, settings: GatewaySettings)
    | DeleteGateway(gatewayId: string)
    | ListTargets(gatewayId: string)
    | CreateTarget(gatewayId: string, targetName: string, config: TargetConfig)
    | UpdateTarget(gatewayId: string, targetId: string, targetName: string, config: TargetConfig)
    | DeleteTarget(gatewayId: string, targetId: string)
    | PutParameter(name: string, value: string)
  {
    /** The gateway this call is about, if it names one. */
    function Subject(): Option<string> {
      match this
      case ListGateways => None
      case CreateGateway(_, _) => None
      case PutParameter(_, _) => None
      case _ => Some(gatewayId)
    }
  }

  /** One entry of the call log: an external call or a sleep. */
  datatype Event = Api(call: Call) | Slept(seconds: nat)

  /** A response body PUT to a callback URL, with the number of log entries
      made before it was sent. */
  datatype Reply = Reply(url: string, body: Response, after: nat)

  datatype Fate = Fail(message: string) | Report(status: GatewayStatus, url: Option<string>)

  function MintedGatewayId(n: nat): string {
    "gw-" + Decimal(n)
  }

  function MintedTargetId(n: nat): string {
    "tg-" + Decimal(n)
  }

  /** The position of the first gateway with the given id. */
  function IndexOfId(gs: seq<Gateway>, id: string): (r: Option<nat>)
    ensures r.Some? ==> r.value < |gs| && gs[r.value].id == id
    ensures r.Some? ==> forall j :: 0 <= j < r.value ==> gs[j].id != id
    ensures r.None? <==> forall j :: 0 <= j < |gs| ==> gs[j].id != id
  {
    if gs == [] then None
    else if gs[0].id == id then Some(0)
    else match IndexOfId(gs[1..], id)
      case None => None
      case Some(k) => Some(k + 1)
  }

  /** The position of the first target with the given id. */
  function IndexOfTarget(ts: seq<Target>, id: string): (r: Option<nat>)
    ensures r.Some? ==> r.value < |ts| && ts[r.value].id == id
    ensures r.Some? ==> forall j :: 0 <= j < r.value ==> ts[j].id != id
    ensures r.None? <==> forall j :: 0 <= j < |ts| ==> ts[j].id != id
  {
    if ts == [] then None
    else if ts[0].id == id then Some(0)
    else match IndexOfTarget(ts[1..], id)
      case None => None
      case Some(k) => Some(k + 1)
  }

  predicate NameTaken(gs: seq<Gateway>, name: string) {
    exists i :: 0 <= i < |gs| && gs[i].name == name
  }

  function RemoveAt<T>(s: seq<T>, i: nat): (r: seq<T>)
    requires i < |s|
    ensures |r| == |s| - 1
    ensures forall j :: 0 <= j < i ==> r[j] == s[j]
    ensures forall j :: i <= j < |r| ==> r[j] == s[j + 1]
  {
    s[..i] + s[i + 1..]
  }

  datatype World = World(
    gateways: seq<Gateway>,
    phases: map<string, Phase>,
    targets: map<string, seq<Target>>,
    params: map<string, string>,
    serial: nat,
    script: map<nat, Fate>,
    ordinal: nat,
    clock: nat,
    trace: seq<Event>,
    replies: seq<Reply>)
  {
    /** The phase of a gateway; one with no recorded phase is READY and
        reports no URL. */
    function PhaseOf(id: string): Phase {
      if id in phases then phases[id] else Phase(Ready, None)
    }

    /** The targets of a gateway, in listing order. */
    function TargetsOf(id: string): seq<Target> {
      if id in targets then targets[id] else []
    }

    /** The next external call is scripted to raise. */
    predicate Faulted() {
      ordinal in script && script[ordinal].Fail?
    }

    /** What every external call shares: it is logged and numbered, and the
        script's fate for its number is applied. */
    function Admit(call: Call): (r: Out<()>)
      ensures Logged(this, r.w, call) && Settled(this, r.w) && r.w.serial == serial
      ensures r.res.Err? <==> Faulted()
      ensures r.res.Err? ==> r.res.message == script[ordinal].message
    {
      var w := this.(ordinal := ordinal + 1, trace := trace + [Api(call)]);
      if ordinal !in script then Out(Ok(()), w)
      else match script[ordinal]
        case Fail(m) => Out(Err(m), w)
        case Report(s, u) =>
          Out(Ok(()), if call.Subject().Some? then w.(phases := phases[call.Subject().value := Phase(s, u)]) else w)
    }

    /** `list_gateways`: every gateway, in listing order. */
    function ListGateways(): (r: Out<seq<Gateway>>)
      ensures Logged(this, r.w, Call.ListGateways) && Settled(this, r.w) && r.w.serial == serial
      ensures r.res.Err? <==> Faulted()
      ensures r.res.Ok? ==> r.res.value == gateways
    {
      var a :- Admit(Call.ListGateways);
      Out(Ok(a.w.gateways), a.w)
    }

    /** `get_gateway`: the details of the gateway with that id. */
    function GetGateway(id: string): (r: Out<Details>)
      ensures Logged(this, r.w, Call.GetGateway(id)) && Settled(this, r.w) && r.w.serial == serial
      ensures r.res.Err? <==> Faulted() || IndexOfId(gateways, id).None?
      ensures r.res.Ok? ==> && r.res.value.id == id
                            && r.res.value.name == gateways[IndexOfId(gateways, id).value].name
                            && r.res.value.status == r.w.PhaseOf(id).status
                            && r.res.value.url == r.w.PhaseOf(id).url
    {
      var a :- Admit(Call.GetGateway(id));
      match IndexOfId(a.w.gateways, id)
      case None => Out(Err(NotFound("gateway", id)), a.w)
      case Some(i) =>
        var p := a.w.PhaseOf(id);
        Out(Ok(Details(id, a.w.gateways[i].name, p.status, p.url)), a.w)
    }

    /** `create_gateway`: a new gateway in CREATING status, with no targets,
        under a freshly minted id, unless the name is already in use. */
    function CreateGateway(name: string, settings: GatewaySettings): (r: Out<string>)
      ensures Logged(this, r.w, Call.CreateGateway(name, settings)) && r.w.params == params
      ensures r.res.Err? <==> Faulted() || NameTaken(gateways, name)
      ensures r.res.Err? && !Faulted() ==> r.res.message == NameConflict(name)
      ensures r.res.Err? ==> Settled(this, r.w) && r.w.serial == serial
      ensures r.res.Ok? ==> && r.res.value == MintedGatewayId(serial)
                            && r.w.gateways == gateways + [Gateway(r.res.value, name)]
                            && r.w.PhaseOf(r.res.value) == Phase(Creating, None)
                            && r.w.TargetsOf(r.res.value) == []
                            && r.w.serial == serial + 1
    {
      var a :- Admit(Call.CreateGateway(name, settings));
      var w := a.w;
      if NameTaken(w.gateways, name) then
        Out(Err(NameConflict(name)), w)
      else
        var id := MintedGatewayId(w.serial);
        Out(Ok(id), w.(gateways := w.gateways + [Gateway(id, name)],
                       phases := w.phases[id := Phase(Creating, None)],
                       targets := w.targets[id := []],
                       serial := w.serial + 1))
    }

    /** `delete_gateway`: removes a gateway that has no targets left. */
    function DeleteGateway(id: string): (r: Out<()>)
      ensures Logged(this, r.w, Call.DeleteGateway(id))
      ensures r.w.serial == serial && r.w.params == params && r.w.targets == targets
      ensures r.res.Ok? <==> !Faulted() && IndexOfId(gateways, id).Some? && TargetsOf(id) == []
      ensures r.res.Ok? ==> r.w.gateways == RemoveAt(gateways, IndexOfId(gateways, id).value)
      ensures r.res.Err? ==> r.w.gateways == gateways
    {
      var a :- Admit(Call.DeleteGateway(id));
      var w := a.w;
      match IndexOfId(w.gateways, id)
      case None => Out(Err(NotFound("gateway", id)), w)
      case Some(i) =>
        if w.TargetsOf(id) != [] then Out(Err(HasTargets(id)), w)
        else Out(Ok(()), w.(gateways := RemoveAt(w.gateways, i)))
    }

    /** `list_gateway_targets`: the targets of a gateway, in listing order. */
    function ListTargets(id: string): (r: Out<seq<Target>>)
      ensures Logged(this, r.w, Call.ListTargets(id)) && Settled(this, r.w) && r.w.serial == serial
      ensures r.res.Err? <==> Faulted() || IndexOfId(gateways, id).None?
      ensures r.res.Ok? ==> r.res.value == TargetsOf(id)
    {
      var a :- Admit(Call.ListTargets(id));
      match IndexOfId(a.w.gateways, id)
      case None => Out(Err(NotFound("gateway", id)), a.w)
      case Some(_) => Out(Ok(a.w.TargetsOf(id)), a.w)
    }

    /** `create_gateway_target`: appends a target under a freshly minted id;
        refused, naming the status, while the gateway is not READY. */
    function CreateTarget(id: string, name: string, config: TargetConfig): (r: Out<string>)
      ensures Logged(this, r.w, Call.CreateTarget(id, name, config))
      ensures r.w.gateways == gateways && r.w.params == params
      ensures r.res.Ok? <==> !Faulted() && IndexOfId(gateways, id).Some? && r.w.PhaseOf(id).status == Ready
      ensures r.res.Err? && !Faulted() && IndexOfId(gateways, id).Some? ==>
                r.res.message == NotReady(id, r.w.PhaseOf(id).status)
      ensures r.res.Ok? ==> && r.res.value == MintedTargetId(serial)
                            && r.w.TargetsOf(id) == TargetsOf(id) + [Target(r.res.value, name, config)]
    {
      var a :- Admit(Call.CreateTarget(id, name, config));
      var w := a.w;
      match IndexOfId(w.gateways, id)
      case None => Out(Err(NotFound("gateway", id)), w)
      case Some(_) =>
        var s := w.PhaseOf(id).status;
        if s != Ready then Out(Err(NotReady(id, s)), w)
        else
          var tid := MintedTargetId(w.serial);
          Out(Ok(tid), w.(targets := w.targets[id := w.TargetsOf(id) + [Target(tid, name, config)]],
                          serial := w.serial + 1))
    }

    /** `update_gateway_target`: replaces the name and configuration of an
        existing target; refused while the gateway is not READY. */
    function UpdateTarget(id: string, tid: string, name: string, config: TargetConfig): (r: Out<()>)
      ensures Logged(this, r.w, Call.UpdateTarget(id, tid, name, config))
      ensures r.w.gateways == gateways && r.w.params == params && r.w.serial == serial
      ensures r.res.Ok? <==> && !Faulted() && IndexOfId(gateways, id).Some?
                             && r.w.PhaseOf(id).status == Ready && IndexOfTarget(TargetsOf(id), tid).Some?
      ensures r.res.Ok? ==> r.w.TargetsOf(id)
                              == TargetsOf(id)[IndexOfTarget(TargetsOf(id), tid).value := Target(tid, name, config)]
    {
      var a :- Admit(Call.UpdateTarget(id, tid, name, config));
      var w := a.w;
      match IndexOfId(w.gateways, id)
      case None => Out(Err(NotFound("gateway", id)), w)
      case Some(_) =>
        var s := w.PhaseOf(id).status;
        if s != Ready then Out(Err(NotReady(id, s)), w)
        else match IndexOfTarget(w.TargetsOf(id), tid)
          case None => Out(Err(NotFound("target", tid)), w)
          case Some(j) => Out(Ok(()), w.(targets := w.targets[id := w.TargetsOf(id)[j := Target(tid, name, config)]]))
    }

    /** `delete_gateway_target`: removes a target of a gateway. */
    function DeleteTarget(id: string, tid: string): (r: Out<()>)
      ensures Logged(this, r.w, Call.DeleteTarget(id, tid))
      ensures r.w.gateways == gateways && r.w.params == params && r.w.serial == serial
      ensures r.res.Ok? <==> && !Faulted() && IndexOfId(gateways, id).Some?
                             && IndexOfTarget(TargetsOf(id), tid).Some?
      ensures r.res.Ok? ==> r.w.TargetsOf(id) == RemoveAt(TargetsOf(id), IndexOfTarget(TargetsOf(id), tid).value)
    {
      var a :- Admit(Call.DeleteTarget(id, tid));
      var w := a.w;
      match IndexOfId(w.gateways, id)
      case None => Out(Err(NotFound("gateway", id)), w)
      case Some(_) =>
        match IndexOfTarget(w.TargetsOf(id), tid)
        case None => Out(Err(NotFound("target", tid)), w)
        case Some(j) => Out(Ok(()), w.(targets := w.targets[id := RemoveAt(w.TargetsOf(id), j)]))
    }

    /** `put_parameter` with Overwrite: the parameter takes the new value. */
    function PutParameter(name: string, value: string): (r: Out<()>)
      ensures Logged(this, r.w, Call.PutParameter(name, value))
      ensures r.w.gateways == gateways && r.w.serial == serial
      ensures r.res.Err? <==> Faulted()
      ensures r.w.params == if r.res.Ok? then params[name := value] else params
    {
      var a :- Admit(Call.PutParameter(name, value));
      Out(Ok(()), a.w.(params := a.w.params[name := value]))
    }

    /** `time.sleep(seconds)`: the clock advances by exactly that much. */
    function Sleep(seconds: nat): (r: World)
      ensures r == this.(clock := clock + seconds, trace := trace + [Slept(seconds)])
    {
      this.(clock := clock + seconds, trace := trace + [Slept(seconds)])
    }

    /** The HTTP PUT of a response body to a callback URL. */
    function Send(url: string, body: Response): (r: World)
      ensures r == this.(replies := replies + [Reply(url, body, |trace|)])
    {
      this.(replies := replies + [Reply(url, body, |trace|)])
    }
  }

  function NotFound(kind: string, id: string): string {
    "ResourceNotFoundException: " + kind + " " + id + " not found"
  }

  function NameConflict(name: string): string {
    "ConflictException: a gateway named " + name + " already exists"
  }

  function HasTargets(id: string): string {
    "ConflictException: gateway " + id + " still has targets"
  }

  /** The refusal of a target change while the gateway is not READY; it names
      the gateway's status. */
  function NotReady(id: string, s: GatewayStatus): string {
    "ConflictException: gateway " + id + " is " + StatusName(s)
  }

  /** The result of an external step: what it returned or raised, and the
      world after it. */
  datatype Out<T> = Out(res: Result<T>, w: World) {
    predicate IsFailure() { res.Err? }

    function PropagateFailure<U>(): Out<U>
      requires res.Err?
    {
      Out(Err(res.message), w)
    }

    function Extract(): Step<T>
      requires res.Ok?
    {
      Step(res.value, w)
    }
  }

  datatype Step<T> = Step(value: T, w: World)

  /** `w1` follows `w0` by exactly one logged external call, `call`: the
      clock, the script and the replies are untouched. */
  ghost predicate Logged(w0: World, w1: World, call: Call) {
    && w1.trace == w0.trace + [Api(call)] && w1.ordinal == w0.ordinal + 1
    && w1.clock == w0.clock && w1.script == w0.script && w1.replies == w0.replies
  }

  /** The registry, the targets and the parameter store are as they were;
      only phases may have moved. */
  ghost predicate Settled(w0: World, w1: World) {
    w1.gateways == w0.gateways && w1.targets == w0.targets && w1.params == w0.params
  }

  /** `w1` comes after `w0` with no response delivered in between: the log
      only grew, and the clock and call ordinal never go back. */
  ghost predicate Quiet(w0: World, w1: World) {
    && w1.script == w0.script && w1.replies == w0.replies
    && |w0.trace| <= |w1.trace| && w0.ordinal <= w1.ordinal && w0.clock <= w1.clock
  }

  /** `w1` follows `w0` by a run that delivered exactly one response, as
      its last act: `body`, PUT to `url`. */
  ghost predicate Answered(w0: World, w1: World, url: string, body: Response) {
    && w1.script == w0.script && w1.replies == w0.replies + [Reply(url, body, |w1.trace|)]
    && |w0.trace| <= |w1.trace| && w0.ordinal <= w1.ordinal && w0.clock <= w1.clock
  }
}
