/** Properties of target creation with retry and of the create-or-update
    step built on it: the exact log a retry run leaves (one create call per
    attempt, a backoff of 2^attempt seconds after each transient refusal),
    the cap on create calls, the total backoff, and which errors are
    retried. */
module RetryFacts {
  import opened Common
  import opened Remote
  import opened Reconcile
  import opened Traces

  /** The log of the retried attempts `from` up to `to` (exclusive): each a
      create call followed by a sleep of 2^attempt. */
  function Rounds(gid: string, config: TargetConfig, from: nat, to: nat): seq<Event>
    decreases to - from
  {
    if from >= to then []
    else [Api(CreateTarget(gid, TargetName, config)), Slept(Pow2(from))] + Rounds(gid, config, from + 1, to)
  }

  /** The number of entries of a log that satisfy `f`. */
  function Tally(es: seq<Event>, f: Event -> bool): (n: nat)
    ensures n <= |es|
  {
    if es == [] then 0 else (if f(es[0]) then 1 else 0) + Tally(es[1..], f)
  }

  predicate IsCreateTarget(e: Event) {
    e.Api? && e.call.CreateTarget?
  }

  lemma {:induction false} TallyAppend(a: seq<Event>, b: seq<Event>, f: Event -> bool)
    ensures Tally(a + b, f) == Tally(a, f) + Tally(b, f)
    decreases |a|
  {
    if a != [] {
      assert (a + b)[1..] == a[1..] + b;
      TallyAppend(a[1..], b, f);
    } else {
      assert a + b == b;
    }
  }

  /** The retried attempts make one create call each. */
  lemma {:induction false} RoundsCreateCalls(gid: string, config: TargetConfig, from: nat, to: nat)
    requires from <= to
    ensures Tally(Rounds(gid, config, from, to), IsCreateTarget) == to - from
    decreases (to as int) - (from as int)
  {
    if from < to {
      var head: seq<Event> := [Api(CreateTarget(gid, TargetName, config)), Slept(Pow2(from))];
      RoundsCreateCalls(gid, config, from + 1, to);
      TallyAppend(head, Rounds(gid, config, from + 1, to), IsCreateTarget);
      assert head[1..] == [Slept(Pow2(from))];
      assert Tally(head, IsCreateTarget) == 1;
    }
  }

  /** A retry run from `w`, at attempt `from`, reached attempt `k` with
      every attempt before it refused with an error of the retried class
      and followed by its backoff; there it ended with `r`: when attempts
      had run out, with RetryExhausted and nothing more called; otherwise
      with the outcome of one more create call, which was a success or an
      error that is not transient. */
  ghost predicate Retried(w: World, r: Out<string>, gid: string, config: TargetConfig,
                          from: nat, k: nat, maxRetries: nat)
    decreases k - from
  {
    if from >= k then
      && (k >= maxRetries ==> r == Out(Err(RetryExhausted(maxRetries)), w))
      && (k < maxRetries ==> && r == w.CreateTarget(gid, TargetName, config)
                             && (r.res.Err? ==> !Transient(r.res.message)))
    else
      var o := w.CreateTarget(gid, TargetName, config);
      && o.res.Err? && Transient(o.res.message)
      && Retried(o.w.Sleep(Pow2(from)), r, gid, config, from + 1, k, maxRetries)
  }

  /** How a retry run that started at attempt `attempt` ended after `k`
      attempts, as `Retried` says: its log is a create call and a backoff of
      2^i seconds per refused attempt i, then, unless attempts ran out, the
      deciding create call; the clock advanced by 2^attempt + ... + 2^(k-1);
      and a success returns the id of the target just appended, named
      GASPAgent with the requested configuration. */
  ghost predicate RetryEnded(w: World, r: Out<string>, gid: string, config: TargetConfig,
                             attempt: nat, maxRetries: nat, k: nat)
  {
    && attempt <= k <= maxRetries
    && Retried(w, r, gid, config, attempt, k, maxRetries)
    && r.w.clock + Pow2(attempt) == w.clock + Pow2(k)
    && (k == maxRetries ==>
          && r.res == Err(RetryExhausted(maxRetries))
          && r.w.trace == w.trace + Rounds(gid, config, attempt, k))
    && (k < maxRetries ==>
          && r.w.trace == w.trace + Rounds(gid, config, attempt, k) + [Api(CreateTarget(gid, TargetName, config))]
          && (r.res.Err? ==> !Transient(r.res.message))
          && (r.res.Ok? ==> && |r.w.TargetsOf(gid)| > 0
                            && r.w.TargetsOf(gid)[|r.w.TargetsOf(gid)| - 1] == Target(r.res.value, TargetName, config)))
  }

  lemma {:induction false} RetryShape(w: World, gid: string, config: TargetConfig, attempt: nat, maxRetries: nat)
    requires attempt <= maxRetries
    ensures exists k: nat :: RetryEnded(w, RetryFrom(w, gid, config, attempt, maxRetries), gid, config, attempt, maxRetries, k)
    decreases maxRetries - attempt
  {
    var r := RetryFrom(w, gid, config, attempt, maxRetries);
    if attempt == maxRetries {
      assert w.trace + Rounds(gid, config, attempt, attempt) == w.trace;
      assert RetryEnded(w, r, gid, config, attempt, maxRetries, attempt);
    } else {
      var o := w.CreateTarget(gid, TargetName, config);
      if o.res.Err? && Transient(o.res.message) {
        var w2 := o.w.Sleep(Pow2(attempt));
        RetryShape(w2, gid, config, attempt + 1, maxRetries);
        var k: nat :| RetryEnded(w2, r, gid, config, attempt + 1, maxRetries, k);
        RetryRoundBefore(w, o, r, gid, config, attempt, maxRetries, k);
      } else {
        assert w.trace + Rounds(gid, config, attempt, attempt) == w.trace;
        assert RetryEnded(w, r, gid, config, attempt, maxRetries, attempt);
      }
    }
  }

  /** One transiently refused attempt, and its backoff, in front of a
      finished retry run. */
  lemma RetryRoundBefore(w: World, o: Out<string>, r: Out<string>, gid: string, config: TargetConfig,
                         attempt: nat, maxRetries: nat, k: nat)
    requires attempt < maxRetries
    requires o == w.CreateTarget(gid, TargetName, config) && o.res.Err? && Transient(o.res.message)
    requires RetryEnded(o.w.Sleep(Pow2(attempt)), r, gid, config, attempt + 1, maxRetries, k)
    ensures RetryEnded(w, r, gid, config, attempt, maxRetries, k)
  {
    var w2 := o.w.Sleep(Pow2(attempt));
    var head: seq<Event> := [Api(CreateTarget(gid, TargetName, config)), Slept(Pow2(attempt))];
    RoundWorld(w, o, gid, config, attempt);
    assert Rounds(gid, config, attempt, k) == head + Rounds(gid, config, attempt + 1, k);
    assert Pow2(attempt + 1) == 2 * Pow2(attempt);
    RoundTrace(w.trace, w2.trace, r.w.trace, head, Rounds(gid, config, attempt + 1, k),
               [Api(CreateTarget(gid, TargetName, config))], k == maxRetries);
  }

  /** The world after one refused attempt and its backoff. */
  lemma RoundWorld(w: World, o: Out<string>, gid: string, config: TargetConfig, attempt: nat)
    requires o == w.CreateTarget(gid, TargetName, config)
    ensures o.w.Sleep(Pow2(attempt)).trace == w.trace + [Api(CreateTarget(gid, TargetName, config)), Slept(Pow2(attempt))]
    ensures o.w.Sleep(Pow2(attempt)).clock == w.clock + Pow2(attempt)
  {
  }

  /** A log that extends a head extends the log before the head. */
  lemma RoundTrace<T>(t0: seq<T>, t1: seq<T>, t2: seq<T>, head: seq<T>, rounds: seq<T>, last: seq<T>, exhausted: bool)
    requires t1 == t0 + head
    requires exhausted ==> t2 == t1 + rounds
    requires !exhausted ==> t2 == t1 + rounds + last
    ensures exhausted ==> t2 == t0 + (head + rounds)
    ensures !exhausted ==> t2 == t0 + (head + rounds) + last
  {
  }

  /** The retry stops at the first error that is not of the retried class:
      when the first create call is refused with any other error, that
      error is raised at once, after that one call and with no backoff. */
  lemma HardRefusalRaisesAtOnce(w: World, gid: string, config: TargetConfig, maxRetries: nat)
    requires maxRetries > 0
    requires var o := w.CreateTarget(gid, TargetName, config);
             o.res.Err? && !Transient(o.res.message)
    ensures var o := w.CreateTarget(gid, TargetName, config);
            var r := CreateTargetWithRetry(w, gid, config, maxRetries);
            && r.res == Err(o.res.message)
            && r.w.trace == w.trace + [Api(CreateTarget(gid, TargetName, config))]
            && r.w.clock == w.clock
  {
    var r := CreateTargetWithRetry(w, gid, config, maxRetries);
    RetryShape(w, gid, config, 0, maxRetries);
    var k: nat :| RetryEnded(w, r, gid, config, 0, maxRetries, k);
    if k > 0 {
      assert false;
    }
    assert Rounds(gid, config, 0, 0) == [];
  }

  /** What a retry run started at attempt 0 left behind: at most
      `maxRetries` create calls. Either all of them were refused
      transiently, the run raised "Failed to create target after N
      attempts" and the backoff slept 1 + 2 + ... + 2^(N-1) = 2^N - 1
      seconds in all; or the last call made decided the result, which is
      then a success or an error that is not transient. */
  ghost predicate WithinBudget(w: World, r: Out<string>, gid: string, config: TargetConfig, maxRetries: nat) {
    && |w.trace| <= |r.w.trace|
    && Tally(r.w.trace[|w.trace|..], IsCreateTarget) <= maxRetries
    && (|| (&& Tally(r.w.trace[|w.trace|..], IsCreateTarget) == maxRetries
            && r.res == Err(RetryExhausted(maxRetries))
            && r.w.clock + 1 == w.clock + Pow2(maxRetries))
        || (&& |w.trace| < |r.w.trace| && r.w.trace[|r.w.trace| - 1] == Api(CreateTarget(gid, TargetName, config))
            && (r.res.Err? ==> !Transient(r.res.message))))
  }

  lemma EndedWithinBudget(w: World, r: Out<string>, gid: string, config: TargetConfig, maxRetries: nat, k: nat)
    requires RetryEnded(w, r, gid, config, 0, maxRetries, k)
    ensures WithinBudget(w, r, gid, config, maxRetries)
  {
    RoundsCreateCalls(gid, config, 0, k);
    var rounds := Rounds(gid, config, 0, k);
    if k == maxRetries {
      assert r.w.trace[|w.trace|..] == rounds;
    } else {
      var call: seq<Event> := [Api(CreateTarget(gid, TargetName, config))];
      assert r.w.trace[|w.trace|..] == rounds + call;
      TallyAppend(rounds, call, IsCreateTarget);
      assert Tally(call, IsCreateTarget) == 1 by {
        assert call[1..] == [];
      }
    }
  }

  /** `create_target_with_retry` stays within its budget of attempts. */
  lemma RetryBudget(w: World, gid: string, config: TargetConfig, maxRetries: nat)
    ensures WithinBudget(w, CreateTargetWithRetry(w, gid, config, maxRetries), gid, config, maxRetries)
  {
    var r := CreateTargetWithRetry(w, gid, config, maxRetries);
    RetryShape(w, gid, config, 0, maxRetries);
    var k: nat :| RetryEnded(w, r, gid, config, 0, maxRetries, k);
    EndedWithinBudget(w, r, gid, config, maxRetries, k);
  }

  /** A create call refused because the gateway is still CREATING or
      UPDATING raises an error of the class the retry loop retries. */
  lemma BusyRefusalIsTransient(w: World, gid: string, name: string, config: TargetConfig)
    requires !w.Faulted() && IndexOfId(w.gateways, gid).Some?
    requires var s := w.CreateTarget(gid, name, config).w.PhaseOf(gid).status;
             s == Creating || s == Updating
    ensures var o := w.CreateTarget(gid, name, config);
            o.res.Err? && Transient(o.res.message)
  {
    var o := w.CreateTarget(gid, name, config);
    var s := o.w.PhaseOf(gid).status;
    ContainsSuffix("ConflictException: gateway " + gid + " is ", StatusName(s));
    assert o.res.message == ("ConflictException: gateway " + gid + " is ") + StatusName(s);
  }

  /** A retry run calls nothing but the creation of targets of its
      gateway, and sleeps. */
  lemma {:induction false} RetryWithin(w: World, gid: string, config: TargetConfig, attempt: nat, maxRetries: nat)
    ensures Extends(w, RetryFrom(w, gid, config, attempt, maxRetries).w, Retrying(gid))
    decreases maxRetries - attempt
  {
    if attempt >= maxRetries {
      ExtendsRefl(w, w, Retrying(gid));
    } else {
      var o := w.CreateTarget(gid, TargetName, config);
      ExtendsByCall(w, o.w, CreateTarget(gid, TargetName, config), Retrying(gid));
      if o.res.Err? && Transient(o.res.message) {
        var w2 := o.w.Sleep(Pow2(attempt));
        ExtendsBySleep(o.w, Pow2(attempt), Retrying(gid));
        ExtendsTrans(w, o.w, w2, Retrying(gid));
        RetryWithin(w2, gid, config, attempt + 1, maxRetries);
        ExtendsTrans(w, w2, RetryFrom(w2, gid, config, attempt + 1, maxRetries).w, Retrying(gid));
      }
    }
  }

  /** `create_or_update_target` when the gateway lists targets and the
      update succeeds: only the first listed target is updated, its id is
      returned, and no target is created. */
  lemma UpdatesFirstTarget(w: World, gid: string, config: TargetConfig)
    requires var l := w.ListTargets(gid);
             l.res.Ok? && l.res.value != [] && l.w.UpdateTarget(gid, l.res.value[0].id, TargetName, config).res.Ok?
    ensures var r := CreateOrUpdateTarget(w, gid, config);
            && r.res == Ok(w.TargetsOf(gid)[0].id)
            && r.w.TargetsOf(gid) == w.TargetsOf(gid)[0 := Target(w.TargetsOf(gid)[0].id, TargetName, config)]
            && r.w.trace == w.trace + [Api(ListTargets(gid)), Api(UpdateTarget(gid, w.TargetsOf(gid)[0].id, TargetName, config))]
  {
    var l := w.ListTargets(gid);
    var tid := l.res.value[0].id;
    assert IndexOfTarget(l.w.TargetsOf(gid), tid) == Some(0);
  }

  /** `create_or_update_target` when listing raises or lists no target, or
      the update raises: the result is that of a retried creation started
      right after. */
  lemma FallsBackToCreate(w: World, gid: string, config: TargetConfig)
    ensures var l := w.ListTargets(gid);
            var r := CreateOrUpdateTarget(w, gid, config);
            (l.res.Err? || l.res.value == []) ==> r == CreateTargetWithRetry(l.w, gid, config, MaxRetries)
    ensures var l := w.ListTargets(gid);
            var r := CreateOrUpdateTarget(w, gid, config);
            l.res.Ok? && l.res.value != [] ==>
              var u := l.w.UpdateTarget(gid, l.res.value[0].id, TargetName, config);
              u.res.Err? ==> r == CreateTargetWithRetry(u.w, gid, config, MaxRetries)
  {
  }

  /** `create_or_update_target` lists the targets of its gateway once, as
      its first call, and after that only updates or creates targets of
      that gateway and sleeps. */
  lemma CreateOrUpdateWithin(w: World, gid: string, config: TargetConfig)
    ensures var l := w.ListTargets(gid);
            var r := CreateOrUpdateTarget(w, gid, config);
            && l.w.trace == w.trace + [Api(ListTargets(gid))]
            && Extends(l.w, r.w, Revising(gid)) && Extends(w, r.w, Reconciling(gid))
  {
    var l := w.ListTargets(gid);
    var r := CreateOrUpdateTarget(w, gid, config);
    ExtendsByCall(w, l.w, ListTargets(gid), Reconciling(gid));
    if l.res.Ok? && l.res.value != [] {
      var tid := l.res.value[0].id;
      var u := l.w.UpdateTarget(gid, tid, TargetName, config);
      ExtendsByCall(l.w, u.w, UpdateTarget(gid, tid, TargetName, config), Revising(gid));
      if u.res.Err? {
        RetryWithin(u.w, gid, config, 0, MaxRetries);
        ExtendsWiden(u.w, r.w, Retrying(gid), Revising(gid));
        ExtendsTrans(l.w, u.w, r.w, Revising(gid));
      }
    } else {
      RetryWithin(l.w, gid, config, 0, MaxRetries);
      ExtendsWiden(l.w, r.w, Retrying(gid), Revising(gid));
    }
    ExtendsWiden(l.w, r.w, Revising(gid), Reconciling(gid));
    ExtendsTrans(w, l.w, r.w, Reconciling(gid));
  }
}
