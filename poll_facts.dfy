/** Properties of the readiness poll: the log it leaves (a read of the
    gateway, then a pause of PollInterval, per status that is neither READY
    nor a failure), how it ends (READY, FAILED or DELETING, a raised read,
    or the timeout), and the bound on the number of reads and on the time
    spent. */
module PollFacts {
  import opened Common
  import opened Remote
  import opened Reconcile
  import opened Traces

  /** `n` poll rounds: a read of the gateway followed by a pause. */
  function PollRounds(gid: string, n: nat): seq<Event> {
    if n == 0 then [] else [Api(GetGateway(gid)), Slept(PollInterval)] + PollRounds(gid, n - 1)
  }

  predicate IsGetGateway(e: Event) {
    e.Api? && e.call.GetGateway?
  }

  function Reads(es: seq<Event>): (n: nat)
    ensures n <= |es|
  {
    if es == [] then 0 else (if IsGetGateway(es[0]) then 1 else 0) + Reads(es[1..])
  }

  lemma {:induction false} ReadsAppend(a: seq<Event>, b: seq<Event>)
    ensures Reads(a + b) == Reads(a) + Reads(b)
    decreases |a|
  {
    if a != [] {
      assert (a + b)[1..] == a[1..] + b;
      ReadsAppend(a[1..], b);
    } else {
      assert a + b == b;
    }
  }

  lemma {:induction false} PollRoundsReads(gid: string, n: nat)
    ensures Reads(PollRounds(gid, n)) == n
  {
    if n > 0 {
      var head: seq<Event> := [Api(GetGateway(gid)), Slept(PollInterval)];
      PollRoundsReads(gid, n - 1);
      ReadsAppend(head, PollRounds(gid, n - 1));
      assert head[1..] == [Slept(PollInterval)];
    }
  }

  /** A status that neither ends the wait nor raises. */
  predicate InProgress(s: GatewayStatus) {
    s != Ready && s != Failed && s != Deleting
  }

  /** The world after `n` poll rounds, each a read of the gateway and a
      pause. */
  function PollAfter(w: World, gid: string, n: nat): World
    decreases n
  {
    if n == 0 then w else PollAfter(w.GetGateway(gid).w.Sleep(PollInterval), gid, n - 1)
  }

  /** Each of those `n` reads was served and saw a status still in
      progress. */
  ghost predicate Pending(w: World, gid: string, n: nat)
    decreases n
  {
    || n == 0
    || (var g := w.GetGateway(gid);
        g.res.Ok? && InProgress(g.res.value.status) && Pending(g.w.Sleep(PollInterval), gid, n - 1))
  }

  /** How a poll that started at `start` ended after `n` rounds, each a
      served read that saw a status still in progress, followed by a pause:
      every read began before the deadline start + maxWait, and either the
      deadline had passed (timeout, nothing more is called), or one more read
      decided the result: a refused read raises its error; a served one saw
      READY, FAILED or DELETING, and the wait returns exactly when it was
      READY and raises "Gateway in unexpected status" otherwise. */
  ghost predicate PollEnded(w: World, r: Out<()>, gid: string, start: nat, maxWait: nat, n: nat) {
    && Pending(w, gid, n)
    && r.w.clock == w.clock + PollInterval * n
    && (n > 0 ==> w.clock + PollInterval * (n - 1) < start + maxWait)
    && (|| (&& PollAfter(w, gid, n).clock >= start + maxWait
            && r == Out(Err(NotReadyInTime(maxWait)), PollAfter(w, gid, n))
            && r.w.trace == w.trace + PollRounds(gid, n))
        || (&& PollAfter(w, gid, n).clock < start + maxWait
            && r.w == PollAfter(w, gid, n).GetGateway(gid).w
            && r.w.trace == w.trace + PollRounds(gid, n) + [Api(GetGateway(gid))]
            && Decided(PollAfter(w, gid, n).GetGateway(gid), r)))
  }

  /** The last read `g` of a poll decided its result `r`. */
  predicate Decided(g: Out<Details>, r: Out<()>) {
    && (g.res.Err? ==> r.res == Err(g.res.message))
    && (g.res.Ok? ==> && !InProgress(g.res.value.status)
                      && (r.res.Ok? <==> g.res.value.status == Ready)
                      && (r.res.Err? ==> r.res.message == UnexpectedStatus(g.res.value.status)))
  }

  lemma {:induction false} PollShape(w: World, gid: string, start: nat, maxWait: nat)
    requires start <= w.clock
    ensures exists n: nat :: PollEnded(w, PollFrom(w, gid, start, maxWait), gid, start, maxWait, n)
    decreases start + maxWait - w.clock
  {
    var r := PollFrom(w, gid, start, maxWait);
    if w.clock - start >= maxWait {
      assert w.trace + PollRounds(gid, 0) == w.trace;
      assert PollEnded(w, r, gid, start, maxWait, 0);
    } else {
      var g := w.GetGateway(gid);
      if g.res.Err? || !InProgress(g.res.value.status) {
        assert w.trace + PollRounds(gid, 0) == w.trace;
        assert PollEnded(w, r, gid, start, maxWait, 0);
      } else {
        var w2 := g.w.Sleep(PollInterval);
        PollShape(w2, gid, start, maxWait);
        var n: nat :| PollEnded(w2, r, gid, start, maxWait, n);
        PollRoundBefore(w, g, r, gid, start, maxWait, n);
      }
    }
  }

  /** One more round in front of a finished poll. */
  lemma PollRoundBefore(w: World, g: Out<Details>, r: Out<()>, gid: string, start: nat, maxWait: nat, n: nat)
    requires g == w.GetGateway(gid) && g.res.Ok? && InProgress(g.res.value.status)
    requires w.clock < start + maxWait
    requires PollEnded(g.w.Sleep(PollInterval), r, gid, start, maxWait, n)
    ensures PollEnded(w, r, gid, start, maxWait, n + 1)
  {
    var w2 := g.w.Sleep(PollInterval);
    var head: seq<Event> := [Api(GetGateway(gid)), Slept(PollInterval)];
    assert w2.trace == w.trace + head;
    assert PollRounds(gid, n + 1) == head + PollRounds(gid, n);
    assert w.trace + PollRounds(gid, n + 1) == w2.trace + PollRounds(gid, n);
    assert PollAfter(w, gid, n + 1) == PollAfter(w2, gid, n);
  }

  /** A poll started at the time of `w` read the gateway at most
      ceil(maxWait / PollInterval) times and ended less than
      maxWait + PollInterval after it started. */
  ghost predicate PollWithinBudget(w: World, r: Out<()>, maxWait: nat) {
    && |w.trace| <= |r.w.trace|
    && Reads(r.w.trace[|w.trace|..]) * PollInterval < maxWait + PollInterval
    && r.w.clock < w.clock + maxWait + PollInterval
  }

  lemma EndedPollBudget(w: World, r: Out<()>, gid: string, maxWait: nat, n: nat)
    requires PollEnded(w, r, gid, w.clock, maxWait, n)
    ensures PollWithinBudget(w, r, maxWait)
  {
    PollRoundsReads(gid, n);
    if r.w.trace == w.trace + PollRounds(gid, n) {
      assert r.w.trace[|w.trace|..] == PollRounds(gid, n);
    } else {
      var read: seq<Event> := [Api(GetGateway(gid))];
      assert r.w.trace[|w.trace|..] == PollRounds(gid, n) + read;
      ReadsAppend(PollRounds(gid, n), read);
      assert read[1..] == [];
    }
  }

  /** `wait_for_gateway_ready` stays within its budget of reads and time,
      polls taking no time; with the default wait of 120 seconds that is at
      most 12 reads. */
  lemma PollBudget(w: World, gid: string, maxWait: nat)
    ensures PollWithinBudget(w, WaitForGatewayReady(w, gid, maxWait), maxWait)
    ensures maxWait == MaxWait ==>
              Reads(WaitForGatewayReady(w, gid, maxWait).w.trace[|w.trace|..]) <= 12
  {
    var r := WaitForGatewayReady(w, gid, maxWait);
    PollShape(w, gid, w.clock, maxWait);
    var n: nat :| PollEnded(w, r, gid, w.clock, maxWait, n);
    EndedPollBudget(w, r, gid, maxWait, n);
  }

  /** The poll calls nothing but the read of its gateway, and sleeps. */
  lemma {:induction false} PollWithin(w: World, gid: string, start: nat, maxWait: nat)
    requires start <= w.clock
    ensures Extends(w, PollFrom(w, gid, start, maxWait).w, Polling(gid))
    decreases start + maxWait - w.clock
  {
    if w.clock - start >= maxWait {
      ExtendsRefl(w, w, Polling(gid));
    } else {
      var g := w.GetGateway(gid);
      ExtendsByCall(w, g.w, GetGateway(gid), Polling(gid));
      if g.res.Ok? && InProgress(g.res.value.status) {
        var w2 := g.w.Sleep(PollInterval);
        ExtendsBySleep(g.w, PollInterval, Polling(gid));
        ExtendsTrans(w, g.w, w2, Polling(gid));
        PollWithin(w2, gid, start, maxWait);
        ExtendsTrans(w, w2, PollFrom(w2, gid, start, maxWait).w, Polling(gid));
      }
    }
  }
}
