/** Properties of the parameters persisted after a create or update and of
    the URL reported to the stack: the target and gateway ids are always
    written; the URL parameter only when the control plane reported a URL,
    never the constructed fallback; nothing else is touched. */
module SsmFacts {
  import opened Common
  import opened Cfn
  import opened Remote
  import opened Reconcile
  import opened Traces

  function UrlKey(prefix: string): string { prefix + "/gateway_url" }
  function TargetKey(prefix: string): string { prefix + "/target_id" }
  function GatewayKey(prefix: string): string { prefix + "/gateway_id" }

  /** The three parameter names under one prefix are distinct. */
  lemma KeysDistinct(prefix: string)
    ensures UrlKey(prefix) != TargetKey(prefix)
    ensures UrlKey(prefix) != GatewayKey(prefix)
    ensures TargetKey(prefix) != GatewayKey(prefix)
  {
    var i := |prefix| + 1;
    assert UrlKey(prefix)[i] == 'g' && TargetKey(prefix)[i] == 't' && GatewayKey(prefix)[i] == 'g';
    assert UrlKey(prefix)[i + 8] == 'u' && GatewayKey(prefix)[i + 8] == 'i';
  }

  /** The parameters after the writes of `update_ssm_parameters`. */
  lemma SsmOutcome(params: map<string, string>, prefix: string, g: Details, targetId: string)
    ensures var p := Written(params, SsmWrites(prefix, g, targetId));
            && Get(p, TargetKey(prefix)) == Some(targetId)
            && Get(p, GatewayKey(prefix)) == Some(g.id)
            && Get(p, UrlKey(prefix)) == (if UrlKnown(g.url) then g.url else Get(params, UrlKey(prefix)))
            && forall key :: key != UrlKey(prefix) && key != TargetKey(prefix) && key != GatewayKey(prefix) ==>
                 Get(p, key) == Get(params, key)
  {
    KeysDistinct(prefix);
    var tail := [(TargetKey(prefix), targetId), (GatewayKey(prefix), g.id)];
    if UrlKnown(g.url) {
      var ws := [(UrlKey(prefix), g.url.value)] + tail;
      assert ws[1..] == tail;
      WrittenTwo(params[UrlKey(prefix) := g.url.value], TargetKey(prefix), targetId, GatewayKey(prefix), g.id);
    } else {
      assert SsmWrites(prefix, g, targetId) == tail;
      WrittenTwo(params, TargetKey(prefix), targetId, GatewayKey(prefix), g.id);
    }
  }

  lemma WrittenTwo(params: map<string, string>, a: string, x: string, b: string, y: string)
    ensures Written(params, [(a, x), (b, y)]) == params[a := x][b := y]
  {
    var ws := [(a, x), (b, y)];
    var one := [(b, y)];
    assert ws[1..] == one;
    assert one[1..] == [];
    assert Written(params[a := x][b := y], []) == params[a := x][b := y];
    assert Written(params[a := x], one) == Written(params[a := x][b := y], one[1..]);
    assert Written(params, ws) == Written(params[a := x], ws[1..]);
  }

  /** What a successful conclusion reports and persists about the URL: a
      URL the control plane reported is both reported and written; when it
      reported none, the constructed URL is reported but the URL parameter
      keeps whatever value it had. */
  lemma ConcludeUrl(w: World, req: Request, gid: string, g: Details, targetId: string)
    requires Conclude(w, req, gid, g, targetId).res.Ok?
    ensures var r := Conclude(w, req, gid, g, targetId);
            var prefix := req.props["SsmPrefix"];
            && "SsmPrefix" in req.props
            && r.res.value.data["GatewayId"] == gid
            && r.res.value.data["TargetId"] == targetId
            && Get(r.w.params, TargetKey(prefix)) == Some(targetId)
            && Get(r.w.params, GatewayKey(prefix)) == Some(g.id)
            && (UrlKnown(g.url) ==> && r.res.value.data["GatewayUrl"] == g.url.value
                                    && Get(r.w.params, UrlKey(prefix)) == g.url)
            && (!UrlKnown(g.url) ==> && "Region" in req.props
                                     && r.res.value.data["GatewayUrl"] == FallbackUrl(gid, req.props["Region"])
                                     && Get(r.w.params, UrlKey(prefix)) == Get(w.params, UrlKey(prefix)))
  {
    SsmOutcome(w.params, req.props["SsmPrefix"], g, targetId);
  }

  /** Persisting the parameters calls nothing but the parameter store. */
  lemma {:induction false} PutAllWithin(w: World, writes: seq<(string, string)>)
    ensures Extends(w, PutAll(w, writes).w, Storing)
    decreases |writes|
  {
    if writes == [] {
      ExtendsRefl(w, w, Storing);
    } else {
      var p := w.PutParameter(writes[0].0, writes[0].1);
      ExtendsByCall(w, p.w, PutParameter(writes[0].0, writes[0].1), Storing);
      if p.res.Ok? {
        PutAllWithin(p.w, writes[1..]);
        ExtendsTrans(w, p.w, PutAll(p.w, writes[1..]).w, Storing);
      }
    }
  }

  /** The conclusion calls nothing but the parameter store. */
  lemma ConcludeWithin(w: World, req: Request, gid: string, g: Details, targetId: string)
    ensures Extends(w, Conclude(w, req, gid, g, targetId).w, Storing)
  {
    match Lookup(req.props, "SsmPrefix")
    case Err(_) => ExtendsRefl(w, w, Storing);
    case Ok(prefix) =>
      var s := PutAll(w, SsmWrites(prefix, g, targetId));
      PutAllWithin(w, SsmWrites(prefix, g, targetId));
      if s.res.Ok? {
        var r := Conclude(w, req, gid, g, targetId);
        ExtendsRefl(s.w, r.w, Storing);
        ExtendsTrans(w, s.w, r.w, Storing);
      }
  }
}
