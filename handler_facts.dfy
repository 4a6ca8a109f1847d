/** Properties of `handler`: exactly one response per event, SUCCESS
    exactly when the routed operation completed, and a FAILED response
    that carries the error's message otherwise. */
module HandlerFacts {
  import opened Common
  import opened Cfn
  import opened Remote
  import opened Reconcile

  /** The handler's answer is SUCCESS exactly when the routed operation
      completed, and is then that operation's own answer; when it raised,
      the answer is FAILED with the error's message as reason (when it has
      one), no data, and the event's physical id (or "NONE"). In both cases
      exactly one response is sent for the event. */
  lemma HandlerOutcome(w: World, req: Request)
    ensures var r := Handler(w, req);
            var d := Dispatch(w, req);
            && (r.value.status == SUCCESS <==> d.res.Ok?)
            && (d.res.Ok? ==> r.value == d.res.value && r.w == d.w)
            && (d.res.Err? ==> && r.value.data == map[]
                               && (d.res.message != "" ==> r.value.reason == d.res.message)
                               && r.value.physicalId == PhysicalId(req, None)
                               && |r.w.replies| == |w.replies| + 1)
            && |r.w.replies| == |w.replies| + 1
            && r.w.replies[|w.replies|] == Reply(req.responseUrl, r.value, |r.w.trace|)
  {
  }

  /** A request type other than Create, Update or Delete makes no external
      call, changes nothing, and is answered FAILED with
      "Unknown request type: <type>". */
  lemma UnknownTypeRejected(w: World, req: Request)
    requires Route(req.requestType).None?
    ensures var r := Handler(w, req);
            && r.w.trace == w.trace && r.w.gateways == w.gateways && r.w.params == w.params
            && r.value.status == FAILED
            && r.value.reason == UnknownRequestType(req.requestType)
            && r.w.replies == w.replies + [Reply(req.responseUrl, r.value, |w.trace|)]
  {
  }
}
