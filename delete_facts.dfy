/** Properties of `delete_gateway`: the teardown deletes the listed targets
    one by one, pausing after each, and only then the gateway; a failure
    ends it silently; with no failure it removes the gateway and all its
    targets; and the answer is always SUCCESS under the event's physical
    id. */
module DeleteFacts {
  import opened Common
  import opened Cfn
  import opened Remote
  import opened Reconcile
  import opened Traces

  /** The calls a complete teardown of gateway `gid` with targets `ts`
      makes after listing them: each target's deletion followed by a pause,
      then the deletion of the gateway. */
  function DeletePlan(gid: string, ts: seq<Target>): (p: seq<Event>)
    ensures |p| == 2 * |ts| + 1
    decreases |ts|
  {
    if ts == [] then [Api(DeleteGateway(gid))]
    else [Api(DeleteTarget(gid, ts[0].id)), Slept(DeletePause)] + DeletePlan(gid, ts[1..])
  }

  /** The gateway's deletion is the last step of the plan and no other. */
  lemma {:induction false} PlanEndsWithGateway(gid: string, ts: seq<Target>)
    ensures var p := DeletePlan(gid, ts);
            && p[|p| - 1] == Api(DeleteGateway(gid))
            && forall i :: 0 <= i < |p| - 1 ==> p[i] != Api(DeleteGateway(gid))
    decreases |ts|
  {
    if ts != [] {
      PlanEndsWithGateway(gid, ts[1..]);
      var p := DeletePlan(gid, ts);
      var rest := DeletePlan(gid, ts[1..]);
      assert p == [Api(DeleteTarget(gid, ts[0].id)), Slept(DeletePause)] + rest;
      forall i | 0 <= i < |p| - 1
        ensures p[i] != Api(DeleteGateway(gid))
      {
        if i >= 2 {
          assert p[i] == rest[i - 2];
        }
      }
    }
  }

  /** The loop over `ts`, from `w`, served the first `j` target deletions
      (each followed by a pause) and then stopped with `r`: either the next
      deletion was refused and nothing followed it, or, with every target
      deleted, it made the gateway's deletion. */
  ghost predicate Halted(w: World, r: World, gid: string, ts: seq<Target>, j: nat)
    decreases j
  {
    if j == 0 then
      && (ts == [] ==> r == w.DeleteGateway(gid).w)
      && (ts != [] ==> var d := w.DeleteTarget(gid, ts[0].id); d.res.Err? && r == d.w)
    else
      && ts != []
      && (var d := w.DeleteTarget(gid, ts[0].id);
          d.res.Ok? && Halted(d.w.Sleep(DeletePause), r, gid, ts[1..], j - 1))
  }

  /** How the deletion loop over `ts` ended after `j` served deletions, as
      `Halted` says; its log is the first 2j + 1 entries of the plan, and
      when it stopped short of the gateway's deletion the gateway is still
      registered. */
  ghost predicate StoppedAt(w: World, r: World, gid: string, ts: seq<Target>, j: nat) {
    && j <= |ts| && Halted(w, r, gid, ts, j)
    && r.trace == w.trace + DeletePlan(gid, ts)[..2 * j + 1]
    && (j < |ts| ==> r.gateways == w.gateways)
  }

  /** The teardown loop stops at its first refused call: it serves some
      number j of target deletions in listing order and then either is
      refused the next one or has reached the gateway's deletion. */
  lemma {:induction false} LoopShape(w: World, gid: string, ts: seq<Target>)
    ensures exists j: nat :: StoppedAt(w, DeleteTargetsThenGateway(w, gid, ts), gid, ts, j)
    decreases |ts|
  {
    var r := DeleteTargetsThenGateway(w, gid, ts);
    if ts == [] {
      assert StoppedAt(w, r, gid, ts, 0);
    } else {
      var d := w.DeleteTarget(gid, ts[0].id);
      if d.res.Err? {
        assert StoppedAt(w, r, gid, ts, 0);
      } else {
        var w2 := d.w.Sleep(DeletePause);
        LoopShape(w2, gid, ts[1..]);
        var j: nat :| StoppedAt(w2, r, gid, ts[1..], j);
        StopStep(w, d, r, gid, ts, j);
      }
    }
  }

  /** One served deletion and its pause in front of a finished loop. */
  lemma StopStep(w: World, d: Out<()>, r: World, gid: string, ts: seq<Target>, j: nat)
    requires ts != [] && d == w.DeleteTarget(gid, ts[0].id) && d.res.Ok?
    requires StoppedAt(d.w.Sleep(DeletePause), r, gid, ts[1..], j)
    ensures StoppedAt(w, r, gid, ts, j + 1)
  {
    var w2 := d.w.Sleep(DeletePause);
    StepWorld(w, d, gid, ts);
    assert Halted(w, r, gid, ts, j + 1);
    PlanStep(w.trace, r.trace, gid, ts, 2 * j + 1);
  }

  /** The world after one served deletion and its pause. */
  lemma StepWorld(w: World, d: Out<()>, gid: string, ts: seq<Target>)
    requires ts != [] && d == w.DeleteTarget(gid, ts[0].id)
    ensures d.w.Sleep(DeletePause).trace == w.trace + [Api(DeleteTarget(gid, ts[0].id)), Slept(DeletePause)]
    ensures d.w.Sleep(DeletePause).gateways == w.gateways
  {
  }

  /** One target deletion and its pause in front of a plan prefix. */
  lemma PlanStep(before: seq<Event>, trace: seq<Event>, gid: string, ts: seq<Target>, k: nat)
    requires ts != [] && k <= |DeletePlan(gid, ts[1..])|
    requires trace == before + [Api(DeleteTarget(gid, ts[0].id)), Slept(DeletePause)] + DeletePlan(gid, ts[1..])[..k]
    ensures trace == before + DeletePlan(gid, ts)[..k + 2]
  {
    var head: seq<Event> := [Api(DeleteTarget(gid, ts[0].id)), Slept(DeletePause)];
    var rest := DeletePlan(gid, ts[1..]);
    assert DeletePlan(gid, ts) == head + rest;
    PrefixAfter(before, head, rest, k);
  }

  /** Taking a prefix past a known head of a sequence. */
  lemma PrefixAfter<T>(before: seq<T>, head: seq<T>, rest: seq<T>, k: nat)
    requires k <= |rest|
    ensures before + head + rest[..k] == before + (head + rest)[..|head| + k]
  {
    assert (head + rest)[..|head| + k] == head + rest[..k];
  }

  /** `delete_gateway`'s guarded block lists the gateway's targets and then
      follows the plan for exactly those targets up to the first refused
      call, which ends it: a refused listing is the only call made, and
      otherwise the loop stops as `StoppedAt` says. When the teardown reaches
      the gateway's deletion, it has deleted every listed target first, each
      followed by a pause of DeletePause. */
  lemma TeardownOrder(w: World, gid: string)
    ensures var r := Teardown(w, gid);
            var p := DeletePlan(gid, w.TargetsOf(gid));
            && (exists k: nat :: k <= |p| && r.trace == w.trace + [Api(ListTargets(gid))] + p[..k])
            && (|w.trace| < |r.trace| && r.trace[|r.trace| - 1] == Api(DeleteGateway(gid)) ==>
                  r.trace == w.trace + [Api(ListTargets(gid))] + p)
    ensures var l := w.ListTargets(gid);
            var r := Teardown(w, gid);
            && (l.res.Err? ==> r == l.w && r.gateways == w.gateways)
            && (l.res.Ok? ==> exists j: nat :: StoppedAt(l.w, r, gid, w.TargetsOf(gid), j))
  {
    TeardownStops(w, gid);
    TeardownPrefix(w, gid);
  }

  lemma TeardownPrefix(w: World, gid: string)
    ensures var r := Teardown(w, gid);
            var p := DeletePlan(gid, w.TargetsOf(gid));
            && (exists k: nat :: k <= |p| && r.trace == w.trace + [Api(ListTargets(gid))] + p[..k])
            && (|w.trace| < |r.trace| && r.trace[|r.trace| - 1] == Api(DeleteGateway(gid)) ==>
                  r.trace == w.trace + [Api(ListTargets(gid))] + p)
  {
    var r := Teardown(w, gid);
    var p := DeletePlan(gid, w.TargetsOf(gid));
    var k := TeardownCut(w, gid);
    if |w.trace| < |r.trace| && r.trace[|r.trace| - 1] == Api(DeleteGateway(gid)) {
      PlanEndsWithGateway(gid, w.TargetsOf(gid));
      FullCut(w.trace, r.trace, gid, p, k);
    }
  }

  /** How far into the plan the teardown got. */
  lemma TeardownCut(w: World, gid: string) returns (k: nat)
    ensures var p := DeletePlan(gid, w.TargetsOf(gid));
            k <= |p| && Teardown(w, gid).trace == w.trace + [Api(ListTargets(gid))] + p[..k]
  {
    var r := Teardown(w, gid);
    var p := DeletePlan(gid, w.TargetsOf(gid));
    var l := w.ListTargets(gid);
    TeardownStops(w, gid);
    if l.res.Err? {
      k := 0;
      assert r.trace == w.trace + [Api(ListTargets(gid))] + p[..0];
    } else {
      var j: nat :| StoppedAt(l.w, r, gid, w.TargetsOf(gid), j);
      k := 2 * j + 1;
      ListedPrefix(w.trace, l.w.trace, r.trace, gid, p, k);
    }
  }

  /** A plan prefix that ends with the gateway's deletion is the whole plan. */
  lemma FullCut(before: seq<Event>, trace: seq<Event>, gid: string, p: seq<Event>, k: nat)
    requires |p| > 0 && p[|p| - 1] == Api(DeleteGateway(gid))
    requires forall i :: 0 <= i < |p| - 1 ==> p[i] != Api(DeleteGateway(gid))
    requires k <= |p| && trace == before + [Api(ListTargets(gid))] + p[..k]
    requires |before| < |trace| && trace[|trace| - 1] == Api(DeleteGateway(gid))
    ensures trace == before + [Api(ListTargets(gid))] + p
  {
    assert k > 0 ==> trace[|trace| - 1] == p[k - 1];
    assert p[..k] == p;
  }

  lemma TeardownStops(w: World, gid: string)
    ensures var l := w.ListTargets(gid);
            var r := Teardown(w, gid);
            && (l.res.Err? ==> r == l.w && r.gateways == w.gateways)
            && (l.res.Ok? ==> exists j: nat :: StoppedAt(l.w, r, gid, w.TargetsOf(gid), j))
  {
    var l := w.ListTargets(gid);
    if l.res.Ok? {
      LoopShape(l.w, gid, l.res.value);
      var j: nat :| StoppedAt(l.w, Teardown(w, gid), gid, l.res.value, j);
      assert StoppedAt(l.w, Teardown(w, gid), gid, w.TargetsOf(gid), j);
    }
  }

  lemma ListedPrefix(before: seq<Event>, listed: seq<Event>, trace: seq<Event>, gid: string, p: seq<Event>, k: nat)
    requires listed == before + [Api(ListTargets(gid))] && k <= |p| && trace == listed + p[..k]
    ensures trace == before + [Api(ListTargets(gid))] + p[..k]
  {
  }

  /** The teardown loop with no failure scripted for its calls, on a
      gateway that exists and whose targets are `ts`: it follows the whole
      plan. */
  lemma {:induction false} LoopFaultFreeTrace(w: World, gid: string, ts: seq<Target>)
    requires w.TargetsOf(gid) == ts && IndexOfId(w.gateways, gid).Some?
    requires FaultFree(w.script, w.ordinal, w.ordinal + |ts| + 1)
    ensures var r := DeleteTargetsThenGateway(w, gid, ts);
            r.trace == w.trace + DeletePlan(gid, ts)
    decreases |ts|
  {
    if ts == [] {
      GatewayDeleted(w, gid);
    } else {
      var d := w.DeleteTarget(gid, ts[0].id);
      FirstTargetDeleted(w, gid, ts);
      var w2 := d.w.Sleep(DeletePause);
      LoopFaultFreeTrace(w2, gid, ts[1..]);
      TraceStep(w, w2, DeleteTargetsThenGateway(w2, gid, ts[1..]).trace, gid, ts);
    }
  }

  lemma TraceStep(w: World, w2: World, trace: seq<Event>, gid: string, ts: seq<Target>)
    requires ts != [] && w2.trace == w.trace + [Api(DeleteTarget(gid, ts[0].id)), Slept(DeletePause)]
    requires trace == w2.trace + DeletePlan(gid, ts[1..])
    ensures trace == w.trace + DeletePlan(gid, ts)
  {
    assert DeletePlan(gid, ts) == [Api(DeleteTarget(gid, ts[0].id)), Slept(DeletePause)] + DeletePlan(gid, ts[1..]);
  }

  /** The same loop removes every target of the gateway and then the
      gateway itself, and the clock advances by one pause per target. */
  lemma {:induction false} LoopFaultFreeRemoves(w: World, gid: string, ts: seq<Target>)
    requires w.TargetsOf(gid) == ts && IndexOfId(w.gateways, gid).Some?
    requires FaultFree(w.script, w.ordinal, w.ordinal + |ts| + 1)
    ensures var r := DeleteTargetsThenGateway(w, gid, ts);
            && r.gateways == RemoveAt(w.gateways, IndexOfId(w.gateways, gid).value)
            && r.TargetsOf(gid) == []
            && r.clock == w.clock + DeletePause * |ts|
    decreases |ts|
  {
    if ts == [] {
      GatewayDeleted(w, gid);
    } else {
      var d := w.DeleteTarget(gid, ts[0].id);
      FirstTargetDeleted(w, gid, ts);
      var w2 := d.w.Sleep(DeletePause);
      LoopFaultFreeRemoves(w2, gid, ts[1..]);
    }
  }

  /** Deleting the first listed target of an existing gateway, when that
      call is not scripted to fail, leaves the rest of the list. */
  lemma FirstTargetDeleted(w: World, gid: string, ts: seq<Target>)
    requires ts != [] && w.TargetsOf(gid) == ts && IndexOfId(w.gateways, gid).Some? && !FailsAt(w, w.ordinal)
    ensures var d := w.DeleteTarget(gid, ts[0].id);
            d.res.Ok? && d.w.TargetsOf(gid) == ts[1..] && d.w.gateways == w.gateways
  {
    assert IndexOfTarget(ts, ts[0].id) == Some(0);
  }

  /** Deleting an existing gateway with no targets left, when that call is
      not scripted to fail, removes it from the registry. */
  lemma GatewayDeleted(w: World, gid: string)
    requires w.TargetsOf(gid) == [] && IndexOfId(w.gateways, gid).Some? && !FailsAt(w, w.ordinal)
    ensures var d := w.DeleteGateway(gid);
            && d.res.Ok? && d.w.gateways == RemoveAt(w.gateways, IndexOfId(w.gateways, gid).value)
            && d.w.TargetsOf(gid) == [] && d.w.trace == w.trace + [Api(DeleteGateway(gid))] && d.w.clock == w.clock
  {
  }

  /** `delete_gateway` with no failure scripted for its calls, on a gateway
      that exists: the gateway is removed from the registry and has no
      targets left. */
  lemma TeardownFaultFree(w: World, gid: string)
    requires IndexOfId(w.gateways, gid).Some?
    requires FaultFree(w.script, w.ordinal, w.ordinal + |w.TargetsOf(gid)| + 2)
    ensures var r := Teardown(w, gid);
            && r.trace == w.trace + [Api(ListTargets(gid))] + DeletePlan(gid, w.TargetsOf(gid))
            && r.gateways == RemoveAt(w.gateways, IndexOfId(w.gateways, gid).value)
            && r.TargetsOf(gid) == []
            && r.clock == w.clock + DeletePause * |w.TargetsOf(gid)|
  {
    var ts := w.TargetsOf(gid);
    var l := w.ListTargets(gid);
    ListingServed(w, gid);
    LoopFaultFreeTrace(l.w, gid, ts);
    LoopFaultFreeRemoves(l.w, gid, ts);
    TeardownIsLoop(w, gid);
  }

  /** The listing that opens a fault-free teardown is served and leaves the
      loop a fault-free stretch over the same gateway and targets. */
  lemma ListingServed(w: World, gid: string)
    requires IndexOfId(w.gateways, gid).Some?
    requires FaultFree(w.script, w.ordinal, w.ordinal + |w.TargetsOf(gid)| + 2)
    ensures var l := w.ListTargets(gid);
            && !FailsAt(w, w.ordinal)
            && l.w.TargetsOf(gid) == w.TargetsOf(gid) && IndexOfId(l.w.gateways, gid).Some?
            && FaultFree(l.w.script, l.w.ordinal, l.w.ordinal + |w.TargetsOf(gid)| + 1)
  {
    var l := w.ListTargets(gid);
    FaultFreeShift(w.script, l.w.script, w.ordinal, l.w.ordinal, |w.TargetsOf(gid)|);
  }

  /** The first call of a fault-free stretch is served, and the calls after
      it are fault-free. */
  lemma FaultFreeShift(s0: map<nat, Fate>, s1: map<nat, Fate>, o: nat, o1: nat, n: nat)
    requires s1 == s0 && o1 == o + 1 && FaultFree(s0, o, o + n + 2)
    ensures !(o in s0 && s0[o].Fail?) && FaultFree(s1, o1, o1 + n + 1)
  {
    assert o + n + 2 == o1 + n + 1;
  }

  /** When the listing is served, the teardown is the deletion loop over
      the gateway's targets. */
  lemma TeardownIsLoop(w: World, gid: string)
    requires IndexOfId(w.gateways, gid).Some? && !FailsAt(w, w.ordinal)
    ensures Teardown(w, gid) == DeleteTargetsThenGateway(w.ListTargets(gid).w, gid, w.TargetsOf(gid))
  {
  }

  /** `delete_gateway` answers SUCCESS, with no data, under the event's
      physical id, whatever the teardown met; only an event without a
      physical id raises. */
  lemma DeleteAlwaysSucceeds(w: World, req: Request)
    ensures var r := Delete(w, req);
            && (r.res.Ok? <==> req.physicalId.Some?)
            && (r.res.Ok? ==> && r.res.value.status == SUCCESS
                              && r.res.value.physicalId == req.physicalId.value
                              && r.res.value.data == map[]
                              && r.w.trace == Teardown(w, req.physicalId.value).trace)
  {
  }

  /** The teardown of gateway `gid` touches nothing but that gateway and
      its targets. */
  lemma {:induction false} LoopWithin(w: World, gid: string, ts: seq<Target>)
    ensures Extends(w, DeleteTargetsThenGateway(w, gid, ts), Demolition(gid))
    decreases |ts|
  {
    if ts == [] {
      ExtendsByCall(w, w.DeleteGateway(gid).w, DeleteGateway(gid), Demolition(gid));
    } else {
      var d := w.DeleteTarget(gid, ts[0].id);
      ExtendsByCall(w, d.w, DeleteTarget(gid, ts[0].id), Demolition(gid));
      if d.res.Ok? {
        var w2 := d.w.Sleep(DeletePause);
        ExtendsBySleep(d.w, DeletePause, Demolition(gid));
        ExtendsTrans(w, d.w, w2, Demolition(gid));
        LoopWithin(w2, gid, ts[1..]);
        ExtendsTrans(w, w2, DeleteTargetsThenGateway(w2, gid, ts[1..]), Demolition(gid));
      }
    }
  }

  lemma TeardownWithin(w: World, gid: string)
    ensures Extends(w, Teardown(w, gid), Demolition(gid))
  {
    var l := w.ListTargets(gid);
    ExtendsByCall(w, l.w, ListTargets(gid), Demolition(gid));
    if l.res.Ok? {
      LoopWithin(l.w, gid, l.res.value);
      ExtendsTrans(w, l.w, Teardown(w, gid), Demolition(gid));
    }
  }
}
