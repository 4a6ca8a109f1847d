/** The clients the handler holds at module level: the control-plane client,
    the parameter-store client, the clock and the response channel, all over
    one remote state that each call updates in place. */
module Clients {
  import opened Common
  import opened Cfn
  import opened Remote

  class Cloud {
    /** Everything outside the function: gateways, targets, parameters,
        the clock and the log of calls and responses. */
    var world: World

    constructor (w: World)
      ensures world == w
    {
      world := w;
    }

    method ListGateways() returns (r: Result<seq<Gateway>>)
      modifies this
      ensures Out(r, world) == old(world).ListGateways()
    {
      var o := world.ListGateways();
      r, world := o.res, o.w;
    }

    method GetGateway(id: string) returns (r: Result<Details>)
      modifies this
      ensures Out(r, world) == old(world).GetGateway(id)
    {
      var o := world.GetGateway(id);
      r, world := o.res, o.w;
    }

    method CreateGateway(name: string, settings: GatewaySettings) returns (r: Result<string>)
      modifies this
      ensures Out(r, world) == old(world).CreateGateway(name, settings)
    {
      var o := world.CreateGateway(name, settings);
      r, world := o.res, o.w;
    }

    method DeleteGateway(id: string) returns (r: Result<()>)
      modifies this
      ensures Out(r, world) == old(world).DeleteGateway(id)
    {
      var o := world.DeleteGateway(id);
      r, world := o.res, o.w;
    }

    method ListTargets(id: string) returns (r: Result<seq<Target>>)
      modifies this
      ensures Out(r, world) == old(world).ListTargets(id)
    {
      var o := world.ListTargets(id);
      r, world := o.res, o.w;
    }

    method CreateTarget(id: string, name: string, config: TargetConfig) returns (r: Result<string>)
      modifies this
      ensures Out(r, world) == old(world).CreateTarget(id, name, config)
    {
      var o := world.CreateTarget(id, name, config);
      r, world := o.res, o.w;
    }

    method UpdateTarget(id: string, tid: string, name: string, config: TargetConfig) returns (r: Result<()>)
      modifies this
      ensures Out(r, world) == old(world).UpdateTarget(id, tid, name, config)
    {
      var o := world.UpdateTarget(id, tid, name, config);
      r, world := o.res, o.w;
    }

    method DeleteTarget(id: string, tid: string) returns (r: Result<()>)
      modifies this
      ensures Out(r, world) == old(world).DeleteTarget(id, tid)
    {
      var o := world.DeleteTarget(id, tid);
      r, world := o.res, o.w;
    }

    method PutParameter(name: string, value: string) returns (r: Result<()>)
      modifies this
      ensures Out(r, world) == old(world).PutParameter(name, value)
    {
      var o := world.PutParameter(name, value);
      r, world := o.res, o.w;
    }

    /** `time.time()`. */
    method Now() returns (t: nat)
      ensures t == world.clock
    {
      t := world.clock;
    }

    /** `time.sleep(seconds)`. */
    method Sleep(seconds: nat)
      modifies this
      ensures world == old(world).Sleep(seconds)
    {
      world := world.Sleep(seconds);
    }

    /** The HTTP PUT of a response body. */
    method Send(url: string, body: Response)
      modifies this
      ensures world == old(world).Send(url, body)
    {
      world := world.Send(url, body);
    }
  }
}
