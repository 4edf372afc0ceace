/** The cluster of mock gateways: the same constructor and shard loop as the
    proxy cluster, with bare gateway shards (each with its own database
    connection) and a fixed sleep between shards. As written it hands each
    shard the database url where the shard expects the gateway url, and the
    run options where it expects the database url; and the shards have no
    `kill`, so killing a cluster that has shards fails. */
module MockCluster {
  import opened Wrappers
  import opened Numbers
  import GatewayHandler
  import opened Proxy
  import opened ClusterProcess
  import opened ClusterManager
  import opened Cluster

  /** The run options after their defaults, as the loop passes them on. */
  datatype RunOptions = RunOptions(delay: int, shardCount: Option<int>, url: Option<string>, wait: Option<bool>)

  /** What a mock gateway's `run(url, mongoUrl, options)` does, in order. */
  datatype MockEffect = ConnectDatabase(target: RunOptions) | ConnectSocket(url: string) | AwaitSocketReady

  const NotAFunction: string := "shard.kill is not a function"

  /** A mock gateway: a socket for one shard and its own database models. */
  class MockGateway {
    const token: string
    const shardId: int
    const shardCount: int
    const handler: GatewayHandler.Handler
    var effects: seq<MockEffect>

    constructor(token: string, shardId: int, shardCount: int, gateway: GatewayHandler.Options)
      ensures this.token == token && this.shardId == shardId && this.shardCount == shardCount
      ensures handler == GatewayHandler.NewHandler(gateway) && effects == []
    {
      this.token := token;
      this.shardId := shardId;
      this.shardCount := shardCount;
      handler := GatewayHandler.NewHandler(gateway);
      effects := [];
    }

    /** `run(url, mongoUrl, options)` as the cluster calls it, with two
        arguments: the database gets the second, the socket the first, and
        with no third argument it always waits for `ready`. */
    method Run(url: string, mongoUrl: RunOptions)
      modifies this
      ensures effects == old(effects) + [ConnectDatabase(mongoUrl), ConnectSocket(url), AwaitSocketReady]
    {
      effects := effects + [ConnectDatabase(mongoUrl), ConnectSocket(url), AwaitSocketReady];
    }
  }

  class MockGatewayCluster {
    const token: string
    const processEnv: Env
    const gateway: GatewayHandler.Options
    const models: Models
    var ran: bool
    var shardCount: int
    /** The range bounds; `None` is `NaN`. */
    var shardStart: Option<int>
    var shardEnd: Option<int>
    /** The `shards` collection, with `order` its keys in insertion order. */
    var shards: map<int, MockGateway>
    var order: seq<int>
    var fetches: nat
    var sleeps: seq<int>
    var events: seq<ClusterEvent>

    /** The token is set; before the run there are no shards; each shard is
        stored once, under its own id. */
    ghost predicate Valid()
      reads this
    {
      token != "" &&
      (!ran ==> shards == map[] && order == []) &&
      (forall k :: k in shards ==> k in order) &&
      (forall j :: 0 <= j < |order| ==> order[j] in shards) &&
      (forall i, j :: 0 <= i < j < |order| ==> order[i] != order[j]) &&
      (forall i, j :: i in shards && j in shards && i != j ==> shards[i] != shards[j]) &&
      (forall k :: k in shards ==> shards[k].shardId == k)
    }

    /** Only `Create` calls it, after checking the token. */
    constructor(token: string, processEnv: Env, gateway: GatewayHandler.Options,
                shardCount: int, shardStart: Option<int>, shardEnd: Option<int>)
      requires token != ""
      ensures this.token == token && this.processEnv == processEnv && this.gateway == gateway
      ensures fresh(models) && models.store == map[] && models.connections == []
      ensures this.shardCount == shardCount && this.shardStart == shardStart && this.shardEnd == shardEnd
      ensures !ran && shards == map[] && order == [] && fetches == 0 && sleeps == [] && events == []
      ensures Valid()
    {
      this.token := token;
      this.processEnv := processEnv;
      this.gateway := gateway;
      models := new Models(map[]);
      this.shardCount := shardCount;
      this.shardStart := shardStart;
      this.shardEnd := shardEnd;
      ran := false;
      shards := map[];
      order := [];
      fetches := 0;
      sleeps := [];
      events := [];
    }

    /** `new MockGatewayCluster(token, options)`: the checks and defaults of
        the proxy cluster's constructor. */
    static method Create(token: string, processEnv: Env, gateway: GatewayHandler.Options,
                         shardCount: Option<int>, shards: Option<seq<int>>)
      returns (r: Result<MockGatewayCluster>)
      ensures r.Failure? <==>
        EffectiveToken(token, processEnv) == "" ||
        (EffectiveShards(shards, processEnv).Some? && |EffectiveShards(shards, processEnv).value| != 2)
      ensures EffectiveToken(token, processEnv) == "" ==> r == Failure(ClusterTokenRequired)
      ensures EffectiveToken(token, processEnv) != "" && r.Failure? ==> r == Failure(ShardsFormat)
      ensures r.Success? ==>
        var c := r.value;
        var bounds := EffectiveShards(shards, processEnv);
        fresh(c) && c.Valid() && c.token == EffectiveToken(token, processEnv) &&
        c.processEnv == processEnv && c.gateway == gateway && c.models.connections == [] &&
        !c.ran && c.shards == map[] && c.fetches == 0 && c.sleeps == [] && c.events == [] &&
        c.shardCount == OrElse(EffectiveCount(shardCount, processEnv), 0) &&
        (bounds.None? ==> c.shardStart == Some(0) && c.shardEnd == Some(-1)) &&
        (bounds.Some? ==> c.shardStart == bounds.value[0] && c.shardEnd == bounds.value[1])
    {
      var effective := EffectiveToken(token, processEnv);
      if effective == "" {
        return Failure(ClusterTokenRequired);
      }
      var count := OrElse(EffectiveCount(shardCount, processEnv), 0);
      var bounds := EffectiveShards(shards, processEnv);
      var start, end := Some(0), Some(-1);
      if bounds.Some? {
        if |bounds.value| != 2 {
          return Failure(ShardsFormat);
        }
        start, end := bounds.value[0], bounds.value[1];
      }
      var c := new MockGatewayCluster(effective, processEnv, gateway, count, start, end);
      r := Success(c);
    }

    /** The effects of a shard the loop ran with these database url and options. */
    static function ShardRun(dbUrl: string, options: RunOptions): seq<MockEffect>
    {
      [ConnectDatabase(options), ConnectSocket(dbUrl), AwaitSocketReady]
    }

    /** A mock gateway for `shardId` that this cluster made and ran. */
    ghost predicate Started(shard: MockGateway, shardId: int, count: int, dbUrl: string, options: RunOptions)
      reads shard
    {
      shard.token == token && shard.shardId == shardId && shard.shardCount == count &&
      shard.handler == GatewayHandler.NewHandler(gateway) && shard.effects == ShardRun(dbUrl, options)
    }

    /** The loop of `run`: one mock gateway per id of the range, in order,
        with `delay` slept after every shard but the last. */
    method StartShards(dbUrl: string, count: int, options: RunOptions)
      returns (started: map<int, MockGateway>, ids: seq<int>, pauses: seq<int>)
      ensures ids == ShardIds(shardStart, shardEnd)
      ensures forall k :: k in started <==> k in ids
      ensures forall k :: k in started ==> fresh(started[k]) && Started(started[k], k, count, dbUrl, options)
      ensures forall i, j :: i in started && j in started && i != j ==> started[i] != started[j]
      ensures pauses == Repeat(options.delay, if ids == [] then 0 else |ids| - 1)
    {
      started, ids, pauses := map[], [], [];
      ghost var all := ShardIds(shardStart, shardEnd);
      if shardStart.None? || shardEnd.None? {
        assert Repeat(options.delay, 0) == [];
        return;
      }
      var s, e := shardStart.value, shardEnd.value;
      var shardId := s;
      while shardId <= e
        invariant s <= shardId && shardId - s <= |all|
        invariant |ids| == shardId - s && forall i :: 0 <= i < |ids| ==> ids[i] == s + i
        invariant forall k :: k in started <==> s <= k < shardId
        invariant forall k :: s <= k < shardId ==> fresh(started[k]) && Started(started[k], k, count, dbUrl, options)
        invariant forall i, j :: i in started && j in started && i != j ==> started[i] != started[j]
        invariant pauses == Repeat(options.delay, if shardId <= e || shardId == s then shardId - s else shardId - s - 1)
        invariant shardId > s ==> shardId <= e + 1
        decreases e - shardId
      {
        var shard := new MockGateway(token, shardId, count, gateway);
        started := started[shardId := shard];
        ids := ids + [shardId];
        shard.Run(dbUrl, options);
        if shardId < e {
          RepeatSnoc(options.delay, shardId - s);
          pauses := pauses + [options.delay];
        }
        shardId := shardId + 1;
      }
      assert ids == all;
      forall k
        ensures k in started <==> k in ids
      {
        if k in started {
          assert ids[k - s] == k;
        }
      }
    }

    /** `run(dbUrl, options)`, once: resolves the count and url as the proxy
        cluster does, fails on a count of 0, connects the models once, starts
        every shard of the range in order with `delay` slept between
        consecutive shards, and emits `ready`. */
    method Run(dbUrl: string, delay: Option<int>, shardCountOption: Option<int>, url: Option<string>, wait: Option<bool>,
               fetchedShards: int, fetchedUrl: string)
      returns (r: Result<()>)
      requires Valid()
      modifies this, models
      ensures Valid() && shardStart == old(shardStart)
      ensures old(ran) ==>
        r.Success? && shards == old(shards) && order == old(order) && sleeps == old(sleeps) &&
        fetches == old(fetches) && events == old(events) && shardCount == old(shardCount) && shardEnd == old(shardEnd) &&
        models.connections == old(models.connections)
      ensures !old(ran) ==>
        fetches == old(fetches) + (if NeedsFetch(shardCountOption, old(shardCount), DefaultUrl(url, processEnv)) then 1 else 0)
      ensures !old(ran) ==>
        (r.Failure? <==> RunCount(shardCountOption, old(shardCount), DefaultUrl(url, processEnv), fetchedShards) == 0)
      ensures !old(ran) && r.Failure? ==>
        r.error == ZeroShardCount && !ran && shards == old(shards) && sleeps == old(sleeps) && events == old(events) &&
        shardCount == old(shardCount) && shardEnd == old(shardEnd) && models.connections == old(models.connections)
      ensures !old(ran) && r.Success? ==>
        ran && events == old(events) + [ClusterReady] &&
        shardCount == RunCount(shardCountOption, old(shardCount), DefaultUrl(url, processEnv), fetchedShards) &&
        shardEnd == (if old(shardEnd) == Some(-1) then Some(shardCount - 1) else old(shardEnd)) &&
        order == ShardIds(shardStart, shardEnd) &&
        (forall k :: k in shards ==>
          fresh(shards[k]) &&
          Started(shards[k], k, shardCount, dbUrl,
                  RunOptions(RunDelay(delay), shardCountOption,
                             Some(RunUrl(shardCountOption, old(shardCount), DefaultUrl(url, processEnv), fetchedUrl)), wait))) &&
        models.connections == old(models.connections) + [dbUrl] &&
        sleeps == old(sleeps) + Repeat(RunDelay(delay), if order == [] then 0 else |order| - 1)
    {
      if ran {
        return Success(());
      }
      var urlOption := DefaultUrl(url, processEnv);
      var count := RunCount(shardCountOption, shardCount, urlOption, fetchedShards);
      var gatewayUrl := RunUrl(shardCountOption, shardCount, urlOption, fetchedUrl);
      if NeedsFetch(shardCountOption, shardCount, urlOption) {
        fetches := fetches + 1;
      }
      if count == 0 {
        return Failure(ZeroShardCount);
      }
      shardCount := count;
      if shardEnd == Some(-1) {
        shardEnd := Some(count - 1);
      }
      Launch(dbUrl, RunOptions(RunDelay(delay), shardCountOption, Some(gatewayUrl), wait));
      r := Success(());
    }

    /** The rest of a first `run` once the count is known. */
    method Launch(dbUrl: string, options: RunOptions)
      requires Valid() && !ran
      modifies this, models
      ensures Valid() && ran && events == old(events) + [ClusterReady]
      ensures shardCount == old(shardCount) && shardStart == old(shardStart) && shardEnd == old(shardEnd)
      ensures fetches == old(fetches)
      ensures order == ShardIds(shardStart, shardEnd)
      ensures forall k :: k in shards ==> fresh(shards[k]) && Started(shards[k], k, shardCount, dbUrl, options)
      ensures models.connections == old(models.connections) + [dbUrl]
      ensures sleeps == old(sleeps) + Repeat(options.delay, if order == [] then 0 else |order| - 1)
    {
      models.Connect(dbUrl);
      var started, ids, pauses := StartShards(dbUrl, shardCount, options);
      ShardIdsCover(shardStart, shardEnd);
      shards := started;
      order := ids;
      sleeps := sleeps + pauses;
      ran := true;
      events := events + [ClusterReady];
    }

    /** `kill`, as written: after a run it calls `kill` on the first shard,
        which mock gateways do not have, so it fails there and changes
        nothing; a run over an empty range has no shard, and then it clears
        `ran` and emits `killed`. */
    method Kill() returns (r: Result<()>)
      requires Valid()
      modifies this
      ensures Valid()
      ensures r.Failure? <==> old(ran) && old(shards) != map[]
      ensures r.Failure? ==> r.error == NotAFunction && ran && shards == old(shards) && events == old(events)
      ensures r.Success? && old(ran) ==> !ran && shards == map[] && order == [] && events == old(events) + [ClusterKilled]
      ensures r.Success? && !old(ran) ==> !ran && shards == old(shards) && events == old(events)
      ensures shardCount == old(shardCount) && shardStart == old(shardStart) && shardEnd == old(shardEnd)
      ensures fetches == old(fetches) && sleeps == old(sleeps)
    {
      if ran {
        if order != [] {
          assert order[0] in shards;
          return Failure(NotAFunction);
        }
        assert forall k :: k !in shards;
        assert shards == map[];
        shards := map[];
        order := [];
        ran := false;
        events := events + [ClusterKilled];
      }
      r := Success(());
    }
  }
}
