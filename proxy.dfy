/** One shard's proxy: a gateway connection whose packets the handler turns
    into writes on the database, run at most once, and reset by wiping this
    shard's records. Socket, REST and database calls are recorded as effects. */
module Proxy {
  import opened Wrappers
  import opened Schemas
  import opened DocumentStore
  import opened Mock
  import opened GatewayHandler

  /** The database models, shared by every shard of a cluster. A collection
      is present in `store` when its model is registered. */
  class Models {
    var store: Store
    var connections: seq<string>

    constructor(store: Store)
      ensures this.store == store && connections == []
    {
      this.store := store;
      connections := [];
    }

    /** `connect(dbUrl)`: recorded; the registration of models is outside. */
    method Connect(url: string)
      modifies this
      ensures connections == old(connections) + [url] && store == old(store)
    {
      connections := connections + [url];
    }

    /** Runs one operation (nothing happens without the model). */
    method Perform(op: Op)
      modifies this
      ensures store == ApplyOp(old(store), op) && connections == old(connections)
    {
      store := ApplyOp(store, op);
    }

    /** The view of the shard `shardId` on these models. */
    function CtxFor(shardId: int): (ctx: Ctx)
      reads this
      ensures ctx.shardId == shardId && (forall c :: c in ctx.models <==> c in store)
    {
      Ctx(shardId, store.Keys)
    }
  }

  /** What a shard asks of its gateway socket and the REST client. */
  datatype Effect = FetchGateway | ConnectGateway(url: string) | AwaitReady | KillGateway

  /** `options.url`, unless it is missing or empty; then the fetched one.
      The cluster manager resolves its url the same way. */
  function GatewayUrl(url: Option<string>, fetched: string): (r: string)
    ensures url.Some? && url.value != "" ==> r == url.value
    ensures url.None? || url.value == "" ==> r == fetched
  {
    if url.Some? && url.value != "" then url.value else fetched
  }

  /** `options.wait || options.wait === undefined`. */
  function Waits(wait: Option<bool>): (r: bool)
    ensures r <==> wait != Some(false)
  {
    wait.None? || wait.value
  }

  /** The effects of a first `run`, in order. */
  function RunEffects(url: Option<string>, wait: Option<bool>, fetched: string): seq<Effect>
  {
    (if url.None? || url.value == "" then [FetchGateway] else []) +
    [ConnectGateway(GatewayUrl(url, fetched))] +
    (if Waits(wait) then [AwaitReady] else [])
  }

  /** The gateway url is fetched only when none was supplied, the connection
      uses the supplied url otherwise, and `run` waits for `ready` unless
      `wait` is `false`. */
  lemma RunEffectsSpec(url: Option<string>, wait: Option<bool>, fetched: string)
    ensures FetchGateway in RunEffects(url, wait, fetched) <==> url.None? || url.value == ""
    ensures url.Some? && url.value != "" ==> ConnectGateway(url.value) in RunEffects(url, wait, fetched)
    ensures AwaitReady in RunEffects(url, wait, fetched) <==> wait != Some(false)
    ensures RunEffects(url, wait, fetched)[|RunEffects(url, wait, fetched)| - 1] == if wait == Some(false) then ConnectGateway(GatewayUrl(url, fetched)) else AwaitReady
  {
    var fetch: seq<Effect> := if url.None? || url.value == "" then [FetchGateway] else [];
    var tail: seq<Effect> := if Waits(wait) then [AwaitReady] else [];
    var e := RunEffects(url, wait, fetched);
    assert e == fetch + [ConnectGateway(GatewayUrl(url, fetched))] + tail;
    assert FetchGateway in e <==> FetchGateway in fetch;
    assert AwaitReady in e <==> AwaitReady in tail;
  }

  class ShardProxy {
    const token: string
    const shardId: int
    const shardCount: int
    const handler: Handler
    const models: Models
    var ran: bool
    var effects: seq<Effect>

    /** Only `Create` calls it: the empty token is rejected there. */
    constructor(token: string, shardId: int, shardCount: int, gateway: Options, models: Models)
      requires token != ""
      ensures this.token == token && this.shardId == shardId && this.shardCount == shardCount
      ensures handler == NewHandler(gateway) && this.models == models
      ensures !ran && effects == []
    {
      this.token := token;
      this.shardId := shardId;
      this.shardCount := shardCount;
      handler := NewHandler(gateway);
      this.models := models;
      ran := false;
      effects := [];
    }

    /** `new ShardProxy(token, options)`: fails without a token; uses the
        models it is given, or fresh ones with nothing registered. */
    static method Create(token: string, shardId: int, shardCount: int, gateway: Options, models: Option<Models>)
      returns (r: Result<ShardProxy>)
      ensures r.Failure? <==> token == ""
      ensures r.Success? ==>
        fresh(r.value) && r.value.token == token && r.value.shardId == shardId &&
        r.value.shardCount == shardCount && r.value.handler == NewHandler(gateway) &&
        !r.value.ran && r.value.effects == []
      ensures r.Success? && models.Some? ==> r.value.models == models.value
      ensures r.Success? && models.None? ==> fresh(r.value.models) && r.value.models.store == map[]
    {
      if token == "" {
        return Failure("Token is required for this library to work.");
      }
      var m: Models;
      if models.Some? {
        m := models.value;
      } else {
        m := new Models(map[]);
      }
      var proxy := new ShardProxy(token, shardId, shardCount, gateway, m);
      r := Success(proxy);
    }

    /** `reset`: one `deleteMany({_shardId})` per registered model, in the
        order of the model keys. */
    method Reset() returns (issued: seq<Op>)
      modifies models
      ensures issued == ResetOps(old(models.CtxFor(shardId)))
      ensures models.store == Apply(old(models.store), issued)
      ensures models.store.Keys == old(models.store).Keys
      ensures forall c :: c in old(models.store) ==>
        models.store[c] == Others(old(models.store)[c], shardId)
      ensures models.connections == old(models.connections)
    {
      var ctx := models.CtxFor(shardId);
      issued := [];
      for i := 0 to |ModelKeys|
        invariant issued == ResetFrom(ctx, ModelKeys[..i])
        invariant models.store == Apply(old(models.store), issued)
        invariant models.store.Keys == ctx.models
        invariant models.connections == old(models.connections)
      {
        var key := ModelKeys[i];
        assert ModelKeys[..i + 1] == ModelKeys[..i] + [key];
        var step := ResetStep(ctx, key);
        if key in models.store {
          models.Perform(DeleteMany(key, ShardFilter(shardId)));
        }
        assert models.store == Apply(Apply(old(models.store), issued), step) by {
          ApplyConcat(old(models.store), issued, step);
          if key !in ctx.models {
            assert step == [];
          }
        }
        ApplyConcat(old(models.store), issued, step);
        issued := issued + step;
      }
      assert ModelKeys[..|ModelKeys|] == ModelKeys;
      ResetWipesShard(old(models.store), ctx);
    }

    /** `kill`: closes the gateway, then resets this shard's records. */
    method Kill()
      modifies this, models
      ensures effects == old(effects) + [KillGateway] && ran == old(ran)
      ensures models.store.Keys == old(models.store).Keys
      ensures forall c :: c in old(models.store) ==>
        models.store[c] == Others(old(models.store)[c], shardId)
      ensures models.connections == old(models.connections)
    {
      effects := effects + [KillGateway];
      var _ := Reset();
    }

    /** A packet from the gateway, as the handler processes it. */
    method Receive(p: Packet)
      modifies models
      ensures models.store == Handle(old(models.store), handler, old(models.CtxFor(shardId)), p)
      ensures models.connections == old(models.connections)
    {
      models.store := Handle(models.store, handler, models.CtxFor(shardId), p);
    }

    /** `run(dbUrl, {url, wait})`: the first call connects the database and the
        gateway (fetching the url when none is given) and waits for `ready`
        unless told not to; any later call does nothing. */
    method Run(dbUrl: string, url: Option<string>, wait: Option<bool>, fetched: string)
      modifies this, models
      ensures old(ran) ==> effects == old(effects) && models.connections == old(models.connections)
      ensures !old(ran) ==>
        effects == old(effects) + RunEffects(url, wait, fetched) &&
        models.connections == old(models.connections) + [dbUrl]
      ensures ran && models.store == old(models.store)
    {
      if !ran {
        ran := true;
        models.Connect(dbUrl);
        effects := effects + RunEffects(url, wait, fetched);
      }
    }
  }

  /** Running a shard twice connects once. */
  method RunTwice(proxy: ShardProxy, dbUrl: string, url: Option<string>, fetched: string)
    requires !proxy.ran
    modifies proxy, proxy.models
    ensures proxy.effects == old(proxy.effects) + RunEffects(url, None, fetched)
    ensures proxy.models.connections == old(proxy.models.connections) + [dbUrl]
  {
    proxy.Run(dbUrl, url, None, fetched);
    proxy.Run(dbUrl, url, None, fetched);
  }
}
