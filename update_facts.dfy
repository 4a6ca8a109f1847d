/** Properties of `update_gateway`: an update that keeps the name touches
    only the existing gateway's target and answers under the event's
    physical id; a rename tears the old gateway down before anything of the
    create runs. The update as the source writes it answers twice on a
    rename; the corrected update answers once. */
module UpdateFacts {
  import opened Common
  import opened Cfn
  import opened Remote
  import opened Reconcile
  import opened Traces
  import opened RetryFacts
  import opened SsmFacts
  import opened DeleteFacts
  import opened CreateFacts

  /** An update that keeps the name: the registry is unchanged and the log
      is exactly one target reconciliation of the event's gateway (a
      listing of its targets, then only target writes and sleeps),
      followed, when that succeeded, by one read of the gateway and then
      only parameter writes. The answer carries the event's physical id. */
  lemma UpdateKeepsGateway(w: World, req: Request, inputs: UpdateInputs)
    requires UpdateParams(req) == Ok(inputs) && !Renamed(req)
    ensures var gid := inputs.gatewayId;
            var r := Update(w, req);
            var l := w.ListTargets(gid);
            var t := CreateOrUpdateTarget(w, gid, inputs.config);
            && r.w.gateways == w.gateways
            && l.w.trace == w.trace + [Api(ListTargets(gid))]
            && Extends(l.w, t.w, Revising(gid))
            && (t.res.Err? ==> r.w.trace == t.w.trace)
            && (t.res.Ok? ==> var d := t.w.GetGateway(gid);
                              && d.w.trace == t.w.trace + [Api(GetGateway(gid))]
                              && Extends(d.w, r.w, Storing))
            && (r.res.Ok? ==> && AnswersFor(req, r.res.value, gid)
                              && r.res.value.physicalId == req.physicalId.value)
  {
    InPlaceShape(w, req, inputs);
    InPlaceAnswers(w, req, inputs);
    UpdateParamsId(req, inputs);
    assert Update(w, req) == UpdateInPlace(w, req, inputs);
  }

  /** The gateway an update works on is the event's physical id. */
  lemma UpdateParamsId(req: Request, inputs: UpdateInputs)
    requires UpdateParams(req) == Ok(inputs)
    ensures req.physicalId == Some(inputs.gatewayId)
  {
  }

  lemma InPlaceShape(w: World, req: Request, inputs: UpdateInputs)
    ensures var gid := inputs.gatewayId;
            var r := UpdateInPlace(w, req, inputs);
            var l := w.ListTargets(gid);
            var t := CreateOrUpdateTarget(w, gid, inputs.config);
            && l.w.trace == w.trace + [Api(ListTargets(gid))]
            && Extends(l.w, t.w, Revising(gid))
            && (t.res.Err? ==> r.w.trace == t.w.trace)
            && (t.res.Ok? ==> var d := t.w.GetGateway(gid);
                              && d.w.trace == t.w.trace + [Api(GetGateway(gid))]
                              && Extends(d.w, r.w, Storing))
  {
    var gid := inputs.gatewayId;
    var t := CreateOrUpdateTarget(w, gid, inputs.config);
    CreateOrUpdateWithin(w, gid, inputs.config);
    if t.res.Ok? {
      var d := t.w.GetGateway(gid);
      if d.res.Ok? {
        ConcludeWithin(d.w, req, gid, d.res.value, t.res.value);
      } else {
        ExtendsRefl(d.w, d.w, Storing);
      }
    }
  }

  lemma InPlaceAnswers(w: World, req: Request, inputs: UpdateInputs)
    ensures var r := UpdateInPlace(w, req, inputs);
            r.res.Ok? ==> AnswersFor(req, r.res.value, inputs.gatewayId)
  {
    var gid := inputs.gatewayId;
    var t := CreateOrUpdateTarget(w, gid, inputs.config);
    if t.res.Ok? {
      var d := t.w.GetGateway(gid);
      if d.res.Ok? {
        ConcludeAnswers(d.w, req, gid, d.res.value, t.res.value);
      }
    }
  }

  /** A rename: the teardown of the old gateway (named by the event's
      physical id) runs first and calls nothing but that gateway's
      deletions; only then the create runs, and its answer is for the
      gateway first registered under the new name. */
  lemma RenameDeletesFirst(w: World, req: Request, inputs: UpdateInputs, cin: CreateInputs)
    requires UpdateParams(req) == Ok(inputs) && Renamed(req) && CreateParams(req.props) == Ok(cin)
    ensures var t := Teardown(w, inputs.gatewayId);
            var r := Update(w, req);
            && inputs.gatewayId == req.physicalId.value
            && Extends(w, t, Demolition(inputs.gatewayId))
            && t.trace[|w.trace|] == Api(ListTargets(inputs.gatewayId))
            && (r.res.Ok? ==> && Extends(t, r.w, Construction)
                              && FirstNamed(r.w.gateways, cin.name).Some?
                              && AnswersFor(req, r.res.value, r.w.gateways[FirstNamed(r.w.gateways, cin.name).value].id))
  {
    var t := Teardown(w, inputs.gatewayId);
    TeardownWithin(w, inputs.gatewayId);
    CreateOutcome(t, req, cin);
    TeardownOrder(w, inputs.gatewayId);
  }

  /** The rename path as written: `delete_gateway` answers SUCCESS for the
      old gateway, with no data, before the create starts; the create then
      answers a second time when it succeeds, and when it raises the
      handler answers FAILED after it. Either way the stack is answered
      twice for one event. */
  lemma RenameAsWrittenAnswersTwice(w: World, req: Request, inputs: UpdateInputs)
    requires UpdateParams(req) == Ok(inputs) && Renamed(req)
    ensures var r := UpdateAsWritten(w, req);
            && |r.w.replies| >= |w.replies| + 1
            && r.w.replies[|w.replies|].body == ResponseBody(req, SUCCESS, None, map[], Some(inputs.gatewayId))
            && |r.w.replies| + (if r.res.Err? then 1 else 0) == |w.replies| + 2
  {
    var d := Delete(w, req);
    assert d.res.Ok?;
    var c := Create(d.w, req);
    assert UpdateAsWritten(w, req) == c;
  }

  /** The corrected update sends no response of its own on a rename
      before the create's: it answers exactly once when it succeeds and not
      at all when it raises, leaving the handler's FAILED the only one. */
  lemma UpdateAnswersOnce(w: World, req: Request)
    ensures var r := Update(w, req);
            |r.w.replies| + (if r.res.Err? then 1 else 0) == |w.replies| + 1
  {
  }
}
