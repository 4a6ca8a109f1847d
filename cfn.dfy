/** The custom-resource protocol spoken with the stack engine: the lifecycle
    event the handler receives, the response body it sends back, and the
    routing of an event to one of the three lifecycle operations. */
module Cfn {
  import opened Common

  /** A lifecycle event. `props` and `oldProps` are the ResourceProperties and
      OldResourceProperties documents; an absent OldResourceProperties is the
      empty document, as `event.get("OldResourceProperties", {})` reads it. */
  datatype Request = Request(
    requestType: string,
    props: map<string, string>,
    oldProps: map<string, string>,
    physicalId: Option<string>,
    stackId: string,
    requestId: string,
    logicalId: string,
    responseUrl: string)

  datatype ResponseStatus = SUCCESS | FAILED

  function StatusText(s: ResponseStatus): string {
    match s
    case SUCCESS => "SUCCESS"
    case FAILED => "FAILED"
  }

  /** The JSON body PUT to the event's ResponseURL. */
  datatype Response = Response(
    status: ResponseStatus,
    reason: string,
    physicalId: string,
    stackId: string,
    requestId: string,
    logicalId: string,
    data: map<string, string>)

  /** The body `send_response` builds. A missing or empty reason becomes
      "<STATUS>: See CloudWatch logs"; a missing or empty physical id falls
      back to the event's PhysicalResourceId, and to "NONE" when the event
      has none. `data` is the Data document, empty when none is given. */
  function ResponseBody(req: Request, status: ResponseStatus, reason: Option<string>,
                        data: map<string, string>, physicalId: Option<string>): (r: Response)
    ensures r.status == status && r.data == data
    ensures r.stackId == req.stackId && r.requestId == req.requestId && r.logicalId == req.logicalId
    ensures r.reason != ""
    ensures reason.Some? && reason.value != "" ==> r.reason == reason.value
    ensures r.physicalId == PhysicalId(req, physicalId)
  {
    Response(
      status,
      if reason.Some? && reason.value != "" then reason.value else StatusText(status) + ": See CloudWatch logs",
      PhysicalId(req, physicalId),
      req.stackId, req.requestId, req.logicalId, data)
  }

  /** The PhysicalResourceId of a response: the one given when it is
      non-empty, else the event's, else "NONE". */
  function PhysicalId(req: Request, given: Option<string>): (r: string)
    ensures given.Some? && given.value != "" ==> r == given.value
    ensures (given.None? || given.value == "") && req.physicalId.Some? ==> r == req.physicalId.value
    ensures (given.None? || given.value == "") && req.physicalId.None? ==> r == "NONE"
  {
    if given.Some? && given.value != "" then given.value
    else if req.physicalId.Some? then req.physicalId.value else "NONE"
  }

  /** The three lifecycle operations the handler serves. */
  datatype Operation = CreateOp | UpdateOp | DeleteOp

  function OperationName(op: Operation): string {
    match op
    case CreateOp => "Create"
    case UpdateOp => "Update"
    case DeleteOp => "Delete"
  }

  /** The routing in `handler`: a request type selects the operation whose
      name it is, and no operation when it names none. */
  function Route(requestType: string): (r: Option<Operation>)
    ensures forall op :: r == Some(op) <==> OperationName(op) == requestType
  {
    if requestType == "Create" then Some(CreateOp)
    else if requestType == "Update" then Some(UpdateOp)
    else if requestType == "Delete" then Some(DeleteOp)
    else None
  }
}
