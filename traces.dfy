/** Which external calls a run may make: scopes of allowed log entries, and
    the relation "the log of `w1` extends that of `w0` with entries of one
    scope only", which the ordering properties are stated with. */
module Traces {
  import opened Remote

  /** The kinds of work the handler does.
      TargetWork: what an in-place update does (read the gateway, list,
      update or create targets, write parameters, sleep).
      Inspection: TargetWork plus listing the gateways.
      Construction: Inspection plus creating a gateway.
      Demolition(gid): listing and deleting the targets of gateway `gid`,
      deleting that gateway, sleeping.
      The narrower scopes each describe one helper of the handler:
      Retrying(gid): creating targets of gateway `gid`, sleeping.
      Revising(gid): creating or updating targets of `gid`, sleeping.
      Reconciling(gid): Revising(gid) plus listing the targets of `gid`.
      Polling(gid): reading gateway `gid`, sleeping.
      Storing: writing parameters. */
  datatype Scope =
    | TargetWork | Inspection | Construction | Demolition(gid: string)
    | Retrying(gid: string) | Revising(gid: string) | Reconciling(gid: string)
    | Polling(gid: string) | Storing

  /** The calls an in-place target reconciliation makes. */
  predicate TargetCall(c: Call) {
    c.GetGateway? || c.ListTargets? || c.UpdateTarget? || c.CreateTarget? || c.PutParameter?
  }

  /** A creation or update of a target of gateway `gid`. */
  predicate TargetWrite(c: Call, gid: string) {
    (c.CreateTarget? || c.UpdateTarget?) && c.gatewayId == gid
  }

  predicate Allowed(e: Event, s: Scope) {
    match s
    case TargetWork => e.Slept? || TargetCall(e.call)
    case Inspection => e.Slept? || TargetCall(e.call) || e.call.ListGateways?
    case Construction => e.Slept? || TargetCall(e.call) || e.call.ListGateways? || e.call.CreateGateway?
    case Demolition(gid) =>
      e.Slept? || e.call == ListTargets(gid) || e.call == DeleteGateway(gid)
      || (e.call.DeleteTarget? && e.call.gatewayId == gid)
    case Retrying(gid) => e.Slept? || (e.call.CreateTarget? && e.call.gatewayId == gid)
    case Revising(gid) => e.Slept? || TargetWrite(e.call, gid)
    case Reconciling(gid) => e.Slept? || TargetWrite(e.call, gid) || e.call == ListTargets(gid)
    case Polling(gid) => e.Slept? || e.call == GetGateway(gid)
    case Storing => e.Api? && e.call.PutParameter?
  }

  /** The external call numbered `o` is scripted to raise. */
  predicate FailsAt(w: World, o: nat) {
    o in w.script && w.script[o].Fail?
  }

  /** None of the external calls numbered `from` .. `to - 1` is scripted
      to raise. */
  predicate FaultFree(script: map<nat, Fate>, from: nat, to: nat)
    decreases to - from
  {
    from >= to || (!(from in script && script[from].Fail?) && FaultFree(script, from + 1, to))
  }

  /** The scopes of one helper, which every broad scope of a create or
      update admits. */
  predicate Narrow(s: Scope) {
    s.Retrying? || s.Revising? || s.Reconciling? || s.Polling? || s == Storing
  }

  /** `small` allows nothing `big` does not. */
  predicate Within(small: Scope, big: Scope) {
    || small == big
    || (small.Retrying? && (big == Revising(small.gid) || big == Reconciling(small.gid)))
    || (small.Revising? && big == Reconciling(small.gid))
    || ((Narrow(small) || small == TargetWork) && (big == TargetWork || big == Inspection || big == Construction))
    || (small == Inspection && big == Construction)
  }

  /** The log of `w1` is that of `w0` followed by entries of scope `s`. */
  ghost predicate Extends(w0: World, w1: World, s: Scope) {
    && |w0.trace| <= |w1.trace| && w1.trace[..|w0.trace|] == w0.trace
    && forall k :: |w0.trace| <= k < |w1.trace| ==> Allowed(w1.trace[k], s)
  }

  lemma ExtendsRefl(w0: World, w1: World, s: Scope)
    requires w1.trace == w0.trace
    ensures Extends(w0, w1, s)
  {
    assert w1.trace[..|w0.trace|] == w0.trace;
  }

  lemma ExtendsByCall(w0: World, w1: World, call: Call, s: Scope)
    requires Logged(w0, w1, call) && Allowed(Api(call), s)
    ensures Extends(w0, w1, s)
  {
    assert w1.trace[..|w0.trace|] == w0.trace;
  }

  lemma ExtendsBySleep(w: World, seconds: nat, s: Scope)
    requires s != Storing
    ensures Extends(w, w.Sleep(seconds), s)
  {
    var w1 := w.Sleep(seconds);
    assert w1.trace == w.trace + [Slept(seconds)];
    assert w1.trace[..|w.trace|] == w.trace;
  }

  lemma {:induction false} ExtendsTrans(w0: World, w1: World, w2: World, s: Scope)
    requires Extends(w0, w1, s) && Extends(w1, w2, s)
    ensures Extends(w0, w2, s)
  {
    assert w2.trace[..|w0.trace|] == w2.trace[..|w1.trace|][..|w0.trace|];
    forall k | |w0.trace| <= k < |w2.trace|
      ensures Allowed(w2.trace[k], s)
    {
      if k < |w1.trace| {
        assert w2.trace[k] == w2.trace[..|w1.trace|][k];
      }
    }
  }

  /** A log entry past `w0` already in `w1` stays where it is in any
      extension of `w1`. */
  lemma EntryKept(w0: World, w1: World, w2: World, s: Scope)
    requires Extends(w1, w2, s) && |w0.trace| < |w1.trace|
    ensures w2.trace[|w0.trace|] == w1.trace[|w0.trace|]
  {
    assert w2.trace[..|w1.trace|][|w0.trace|] == w2.trace[|w0.trace|];
  }

  lemma {:induction false} ExtendsWiden(w0: World, w1: World, small: Scope, big: Scope)
    requires Extends(w0, w1, small) && Within(small, big)
    ensures Extends(w0, w1, big)
  {
    forall k | |w0.trace| <= k < |w1.trace|
      ensures Allowed(w1.trace[k], big)
    {
      AllowedWiden(w1.trace[k], small, big);
    }
  }

  lemma AllowedWiden(e: Event, small: Scope, big: Scope)
    requires Allowed(e, small) && Within(small, big)
    ensures Allowed(e, big)
  {
    if small != big && e.Api? {
      match small
      case Retrying(_) =>
      case Revising(_) =>
      case Reconciling(_) =>
      case Polling(_) =>
      case _ =>
    }
  }
}
