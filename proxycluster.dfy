/** A cluster of shard proxies in one process: it reads its range from the
    environment when a cluster manager forked it, creates and runs one shard
    proxy per shard id in order (all sharing one set of database models),
    and sleeps between shards for what is left of the maximum delay. The
    clock, the sleeps and the REST lookup are inputs and logs. */
module Cluster {
  import opened Wrappers
  import opened Schemas
  import opened DocumentStore
  import GatewayHandler
  import opened Numbers
  import opened Proxy
  import opened ClusterProcess
  import opened ClusterManager

  // ---------------------------------------------------------------------
  // The constructor's view of its options and environment

  /** `process.env.CLUSTER_MANAGER === 'true'`: a manager forked this process. */
  predicate Managed(env: Env)
  {
    "CLUSTER_MANAGER" in env && env["CLUSTER_MANAGER"] == "true"
  }

  /** `+process.env[k]`; `None` stands for `NaN`, also when `k` is unset. */
  function EnvNumber(env: Env, k: string): Option<int>
  {
    if k in env then ParseDecimal(env[k]) else None
  }

  /** The token used: `CLUSTER_TOKEN` when forked by a manager (unset reads
      as the empty, falsy token), the one given otherwise. */
  function EffectiveToken(token: string, env: Env): string
  {
    if !Managed(env) then token
    else if "CLUSTER_TOKEN" in env then env["CLUSTER_TOKEN"]
    else ""
  }

  /** The `shardCount` option, replaced by `CLUSTER_SHARD_COUNT` under a manager. */
  function EffectiveCount(shardCount: Option<int>, env: Env): Option<int>
  {
    if Managed(env) then EnvNumber(env, "CLUSTER_SHARD_COUNT") else shardCount
  }

  /** The `shards` option as numbers that may be `NaN`, replaced by
      `[CLUSTER_SHARD_START, CLUSTER_SHARD_END]` under a manager. */
  function EffectiveShards(shards: Option<seq<int>>, env: Env): Option<seq<Option<int>>>
  {
    if Managed(env) then Some([EnvNumber(env, "CLUSTER_SHARD_START"), EnvNumber(env, "CLUSTER_SHARD_END")])
    else if shards.None? then None
    else Some(seq(|shards.value|, i requires 0 <= i < |shards.value| => Some(shards.value[i])))
  }

  /** The `url` run option, `process.env.GATEWAY_URL` when none is given. */
  function DefaultUrl(url: Option<string>, env: Env): Option<string>
  {
    if url.Some? then url
    else if "GATEWAY_URL" in env then Some(env["GATEWAY_URL"])
    else None
  }

  const ClusterTokenRequired: string := "A Token is required for this library to work."

  /** A process the manager forks for chunk `c` runs exactly that chunk: it
      sees the manager's flag and token, the count, the chunk's bounds and
      the gateway url, whatever its own options say. */
  lemma ForkedClusterReadsChunk(processEnv: Env, token: string, url: string, clusterId: int, shardCount: int,
                                c: Chunk, ownToken: string, ownCount: Option<int>, ownShards: Option<seq<int>>)
    ensures var o := ClusterOptions(url, clusterId, shardCount, c);
      var env := ChildEnv(processEnv["CLUSTER_MANAGER" := "true"]["CLUSTER_TOKEN" := token],
                          o.env, o.clusterId, o.shardCount, o.shardEnd, o.shardStart);
      Managed(env) &&
      EffectiveToken(ownToken, env) == token &&
      EffectiveCount(ownCount, env) == Some(shardCount) &&
      EffectiveShards(ownShards, env) == Some([Some(c.start), Some(c.end)]) &&
      DefaultUrl(None, env) == Some(url)
  {
    var parent := processEnv["CLUSTER_MANAGER" := "true"]["CLUSTER_TOKEN" := token];
    var o := ClusterOptions(url, clusterId, shardCount, c);
    ChildEnvSpec(parent, o.env, o.clusterId, o.shardCount, o.shardEnd, o.shardStart);
    assert !IsClusterVar("CLUSTER_MANAGER") && !IsClusterVar("CLUSTER_TOKEN") && !IsClusterVar("GATEWAY_URL");
    assert "CLUSTER_MANAGER" !in o.env && "CLUSTER_TOKEN" !in o.env && "GATEWAY_URL" in o.env;
  }

  // ---------------------------------------------------------------------
  // The shard loop

  /** The ids `for (shardId = start; shardId <= end; shardId++)` visits;
      a `NaN` bound fails the first comparison. */
  function ShardIds(start: Option<int>, end: Option<int>): (r: seq<int>)
    ensures start.None? || end.None? || start.value > end.value ==> r == []
    ensures start.Some? && end.Some? && start.value <= end.value ==> |r| == end.value - start.value + 1
    ensures forall i :: 0 <= i < |r| ==> start.Some? && r[i] == start.value + i
  {
    if start.Some? && end.Some? && start.value <= end.value then
      seq(end.value - start.value + 1, i => start.value + i)
    else []
  }

  /** The loop visits each id of the range once, in increasing order. */
  lemma ShardIdsCover(start: Option<int>, end: Option<int>)
    ensures forall id :: id in ShardIds(start, end) <==>
      start.Some? && end.Some? && start.value <= id <= end.value
    ensures forall i, j :: 0 <= i < j < |ShardIds(start, end)| ==> ShardIds(start, end)[i] < ShardIds(start, end)[j]
  {
    var r := ShardIds(start, end);
    forall id | start.Some? && end.Some? && start.value <= id <= end.value
      ensures id in r
    {
      assert r[id - start.value] == id;
    }
  }

  function Max(a: int, b: int): int
  {
    if a >= b then a else b
  }

  /** `Math.min(maxDelay, Math.max(maxDelay - took, 0))`: what is left of
      the maximum delay after a shard took `took` to start. */
  function ClampedDelay(maxDelay: int, took: int): (r: int)
    ensures maxDelay >= 0 ==> 0 <= r <= maxDelay
    ensures 0 <= took <= maxDelay ==> r == maxDelay - took
    ensures maxDelay >= 0 && took >= maxDelay ==> r == 0
    ensures took <= 0 || maxDelay < 0 ==> r == maxDelay
  {
    Min(maxDelay, Max(maxDelay - took, 0))
  }

  /** The time the `i`-th shard took to start (`Date.now()` after minus before). */
  function Took(tooks: seq<int>, i: nat): int
  {
    if i < |tooks| then tooks[i] else 0
  }

  /** The sleep after the `i`-th of `n` shards: none after the last, and none
      when the clamped delay is 0. */
  function ShardPause(maxDelay: int, tooks: seq<int>, n: nat, i: nat): seq<int>
  {
    if i + 1 < n && ClampedDelay(maxDelay, Took(tooks, i)) != 0 then [ClampedDelay(maxDelay, Took(tooks, i))] else []
  }

  /** The sleeps after the first `k` of `n` shards, in order. */
  function ShardSleeps(maxDelay: int, tooks: seq<int>, n: nat, k: nat): seq<int>
  {
    if k == 0 then [] else ShardSleeps(maxDelay, tooks, n, k - 1) + ShardPause(maxDelay, tooks, n, k - 1)
  }

  /** Every sleep lies in `(0, maxDelay]`, and there are fewer sleeps than shards. */
  lemma {:induction false} ShardSleepsBounds(maxDelay: int, tooks: seq<int>, n: nat, k: nat)
    requires maxDelay >= 0 && k <= n
    ensures forall x :: x in ShardSleeps(maxDelay, tooks, n, k) ==> 0 < x <= maxDelay
    ensures |ShardSleeps(maxDelay, tooks, n, k)| <= k && (k == n && n > 0 ==> |ShardSleeps(maxDelay, tooks, n, k)| < n)
    decreases k
  {
    if k > 0 {
      ShardSleepsBounds(maxDelay, tooks, n, k - 1);
      var d := ClampedDelay(maxDelay, Took(tooks, k - 1));
      assert ShardSleeps(maxDelay, tooks, n, k) == ShardSleeps(maxDelay, tooks, n, k - 1) + ShardPause(maxDelay, tooks, n, k - 1);
      assert k == n ==> ShardPause(maxDelay, tooks, n, k - 1) == [];
    }
  }

  /** `n` copies of `x`. */
  function Repeat<T>(x: T, n: nat): (r: seq<T>)
    ensures |r| == n && forall i :: 0 <= i < n ==> r[i] == x
  {
    seq(n, _ => x)
  }

  lemma RepeatSnoc<T>(x: T, n: nat)
    ensures Repeat(x, n) + [x] == Repeat(x, n + 1)
  {
    assert (Repeat(x, n) + [x])[n] == x;
  }

  // ---------------------------------------------------------------------
  // Killing the shards

  /** Every collection of `st` holds exactly the records of its collection in
      `before` that belong to none of the first `n` shards of `ids`. */
  ghost predicate WipedUpTo(st: Store, before: Store, ids: seq<int>, n: nat)
    requires n <= |ids|
  {
    st.Keys == before.Keys &&
    forall c, d :: c in before ==>
      (d in st[c] <==> d in before[c] && forall j :: 0 <= j < n ==> !InShard(d, ids[j]))
  }

  /** One more shard's reset extends the wiped prefix by one. */
  lemma WipedUpToStep(mid: Store, st: Store, before: Store, ids: seq<int>, n: nat)
    requires n < |ids| && WipedUpTo(mid, before, ids, n)
    requires st.Keys == mid.Keys && forall c :: c in mid ==> st[c] == Others(mid[c], ids[n])
    ensures WipedUpTo(st, before, ids, n + 1)
  {
    forall c | c in before { ShardWipe(mid[c], ids[n]); }
  }

  datatype ClusterEvent = ClusterReady | ClusterKilled

  class ProxyCluster {
    const token: string
    /** Whether a manager forked this process (`this.manager` is set). */
    const managed: bool
    const processEnv: Env
    /** The gateway options every shard is given. */
    const gateway: GatewayHandler.Options
    const models: Models
    var ran: bool
    var shardCount: int
    /** The range bounds; `None` is `NaN`. */
    var shardStart: Option<int>
    var shardEnd: Option<int>
    /** The `shards` collection, with `order` its keys in insertion order. */
    var shards: map<int, ShardProxy>
    var order: seq<int>
    var fetches: nat
    var sleeps: seq<int>
    var events: seq<ClusterEvent>

    /** The token is set; before the run there are no shards; each shard is
        stored once, under its own id, and uses the cluster's models. */
    ghost predicate Valid()
      reads this
    {
      token != "" &&
      (!ran ==> shards == map[] && order == []) &&
      (forall k :: k in shards ==> k in order) &&
      (forall j :: 0 <= j < |order| ==> order[j] in shards) &&
      (forall i, j :: 0 <= i < j < |order| ==> order[i] != order[j]) &&
      (forall k :: k in shards ==> shards[k].models == models && shards[k].shardId == k)
    }

    /** Only `Create` calls it, after checking the token. */
    constructor(token: string, processEnv: Env, gateway: GatewayHandler.Options, registered: Store,
                shardCount: int, shardStart: Option<int>, shardEnd: Option<int>)
      requires token != ""
      ensures this.token == token && managed == Managed(processEnv) && this.processEnv == processEnv
      ensures this.gateway == gateway && fresh(models) && models.store == registered && models.connections == []
      ensures this.shardCount == shardCount && this.shardStart == shardStart && this.shardEnd == shardEnd
      ensures !ran && shards == map[] && order == [] && fetches == 0 && sleeps == [] && events == []
      ensures Valid()
    {
      this.token := token;
      managed := Managed(processEnv);
      this.processEnv := processEnv;
      this.gateway := gateway;
      models := new Models(registered);
      this.shardCount := shardCount;
      this.shardStart := shardStart;
      this.shardEnd := shardEnd;
      ran := false;
      shards := map[];
      order := [];
      fetches := 0;
      sleeps := [];
      events := [];
    }

    /** `new ProxyCluster(token, options)`: under a manager the token, count
        and range come from the environment; a token is required, `shards`
        must have two elements, and the count defaults to 0 and the range
        to `[0, -1]`. `registered` is what the database models hold. */
    static method Create(token: string, processEnv: Env, gateway: GatewayHandler.Options, registered: Store,
                         shardCount: Option<int>, shards: Option<seq<int>>)
      returns (r: Result<ProxyCluster>)
      ensures r.Failure? <==>
        EffectiveToken(token, processEnv) == "" ||
        (EffectiveShards(shards, processEnv).Some? && |EffectiveShards(shards, processEnv).value| != 2)
      ensures EffectiveToken(token, processEnv) == "" ==> r == Failure(ClusterTokenRequired)
      ensures EffectiveToken(token, processEnv) != "" && r.Failure? ==> r == Failure(ShardsFormat)
      ensures r.Success? ==>
        var c := r.value;
        var bounds := EffectiveShards(shards, processEnv);
        fresh(c) && fresh(c.models) && c.Valid() && c.token == EffectiveToken(token, processEnv) &&
        c.managed == Managed(processEnv) && c.processEnv == processEnv && c.gateway == gateway &&
        c.models.store == registered && c.models.connections == [] &&
        !c.ran && c.shards == map[] && c.fetches == 0 && c.sleeps == [] && c.events == [] &&
        c.shardCount == OrElse(EffectiveCount(shardCount, processEnv), 0) &&
        (bounds.None? ==> c.shardStart == Some(0) && c.shardEnd == Some(-1)) &&
        (bounds.Some? ==> c.shardStart == bounds.value[0] && c.shardEnd == bounds.value[1])
    {
      var effective := EffectiveToken(token, processEnv);
      if effective == "" {
        return Failure(ClusterTokenRequired);
      }
      var count := OrElse(EffectiveCount(shardCount, processEnv), 0);
      var bounds := EffectiveShards(shards, processEnv);
      var start, end := Some(0), Some(-1);
      if bounds.Some? {
        if |bounds.value| != 2 {
          return Failure(ShardsFormat);
        }
        start, end := bounds.value[0], bounds.value[1];
      }
      var c := new ProxyCluster(effective, processEnv, gateway, registered, count, start, end);
      r := Success(c);
    }

    /** A shard proxy for `shardId` that this cluster made and ran. */
    ghost predicate Started(shard: ShardProxy, shardId: int, count: int, gatewayUrl: string,
                            wait: Option<bool>, fetchedUrl: string)
      reads shard
    {
      shard.token == token && shard.shardId == shardId && shard.shardCount == count &&
      shard.handler == GatewayHandler.NewHandler(gateway) && shard.models == models &&
      shard.ran && shard.effects == RunEffects(Some(gatewayUrl), wait, fetchedUrl)
    }

    /** One iteration: create the shard proxy on the shared models and run it. */
    method StartShard(shardId: int, count: int, dbUrl: string, gatewayUrl: string, wait: Option<bool>, fetchedUrl: string)
      returns (shard: ShardProxy)
      requires token != ""
      modifies models
      ensures fresh(shard) && Started(shard, shardId, count, gatewayUrl, wait, fetchedUrl)
      ensures models.connections == old(models.connections) + [dbUrl] && models.store == old(models.store)
    {
      var made := ShardProxy.Create(token, shardId, count, gateway, Some(models));
      shard := made.value;
      shard.Run(dbUrl, Some(gatewayUrl), wait, fetchedUrl);
    }

    /** The loop of `run`: one shard per id of the range, in order, each run
        before the sleep that follows it. */
    method StartShards(dbUrl: string, count: int, gatewayUrl: string, wait: Option<bool>, fetchedUrl: string,
                       maxDelay: int, tooks: seq<int>)
      returns (started: map<int, ShardProxy>, ids: seq<int>, pauses: seq<int>)
      requires token != ""
      modifies models
      ensures ids == ShardIds(shardStart, shardEnd)
      ensures forall k :: k in started <==> k in ids
      ensures forall k :: k in started ==> fresh(started[k]) && Started(started[k], k, count, gatewayUrl, wait, fetchedUrl)
      ensures forall i, j :: i in started && j in started && i != j ==> started[i] != started[j]
      ensures models.connections == old(models.connections) + Repeat(dbUrl, |ids|)
      ensures models.store == old(models.store)
      ensures pauses == ShardSleeps(maxDelay, tooks, |ids|, |ids|)
    {
      started, ids, pauses := map[], [], [];
      ghost var all := ShardIds(shardStart, shardEnd);
      if shardStart.None? || shardEnd.None? {
        assert Repeat(dbUrl, 0) == [];
        return;
      }
      var s, e := shardStart.value, shardEnd.value;
      var shardId := s;
      while shardId <= e
        invariant s <= shardId && shardId - s <= |all|
        invariant |ids| == shardId - s && forall i :: 0 <= i < |ids| ==> ids[i] == s + i
        invariant forall k :: k in started <==> s <= k < shardId
        invariant forall k :: s <= k < shardId ==>
          fresh(started[k]) && Started(started[k], k, count, gatewayUrl, wait, fetchedUrl)
        invariant forall i, j :: i in started && j in started && i != j ==> started[i] != started[j]
        invariant models.connections == old(models.connections) + Repeat(dbUrl, shardId - s)
        invariant models.store == old(models.store)
        invariant pauses == ShardSleeps(maxDelay, tooks, |all|, shardId - s)
        decreases e - shardId
      {
        var shard := StartShard(shardId, count, dbUrl, gatewayUrl, wait, fetchedUrl);
        started := started[shardId := shard];
        ids := ids + [shardId];
        RepeatSnoc(dbUrl, shardId - s);
        var took := Took(tooks, shardId - s);
        if shardId < e {
          var delay := ClampedDelay(maxDelay, took);
          if delay != 0 {
            pauses := pauses + [delay];
          }
        }
        shardId := shardId + 1;
      }
      assert ids == all;
      forall k
        ensures k in started <==> k in ids
      {
        if k in started {
          assert ids[k - s] == k;
        }
      }
    }

    /** `run(dbUrl, options)`, once: resolves the count and url as the
        manager does (the url defaulting to `GATEWAY_URL`), fails on a count
        of 0, connects the models, then creates and runs every shard of the
        range in order on them, sleeping between shards, and emits `ready`.
        `fetchedShards` and `fetchedUrl` answer the REST lookup, `tooks[i]`
        is how long the `i`-th shard took to start. */
    method Run(dbUrl: string, delay: Option<int>, shardCountOption: Option<int>, url: Option<string>, wait: Option<bool>,
               fetchedShards: int, fetchedUrl: string, tooks: seq<int>)
      returns (r: Result<()>)
      requires Valid()
      modifies this, models
      ensures Valid() && shardStart == old(shardStart)
      ensures old(ran) ==>
        r.Success? && shards == old(shards) && order == old(order) && sleeps == old(sleeps) &&
        fetches == old(fetches) && events == old(events) && shardCount == old(shardCount) && shardEnd == old(shardEnd) &&
        models.connections == old(models.connections) && models.store == old(models.store)
      ensures !old(ran) ==>
        fetches == old(fetches) + (if NeedsFetch(shardCountOption, old(shardCount), DefaultUrl(url, processEnv)) then 1 else 0)
      ensures !old(ran) ==>
        (r.Failure? <==> RunCount(shardCountOption, old(shardCount), DefaultUrl(url, processEnv), fetchedShards) == 0)
      ensures !old(ran) && r.Failure? ==>
        r.error == ZeroShardCount && !ran && shards == old(shards) && sleeps == old(sleeps) && events == old(events) &&
        shardCount == old(shardCount) && shardEnd == old(shardEnd) &&
        models.connections == old(models.connections) && models.store == old(models.store)
      ensures !old(ran) && r.Success? ==>
        ran && events == old(events) + [ClusterReady] &&
        shardCount == RunCount(shardCountOption, old(shardCount), DefaultUrl(url, processEnv), fetchedShards) &&
        shardEnd == (if old(shardEnd) == Some(-1) then Some(shardCount - 1) else old(shardEnd)) &&
        order == ShardIds(shardStart, shardEnd) &&
        (forall k :: k in shards ==>
          fresh(shards[k]) &&
          Started(shards[k], k, shardCount, RunUrl(shardCountOption, old(shardCount), DefaultUrl(url, processEnv), fetchedUrl),
                  wait, fetchedUrl)) &&
        models.connections == old(models.connections) + [dbUrl] + Repeat(dbUrl, |order|) &&
        models.store == old(models.store) &&
        sleeps == old(sleeps) + ShardSleeps(RunDelay(delay), tooks, |order|, |order|)
    {
      if ran {
        return Success(());
      }
      var options := DefaultUrl(url, processEnv);
      var count := RunCount(shardCountOption, shardCount, options, fetchedShards);
      var gatewayUrl := RunUrl(shardCountOption, shardCount, options, fetchedUrl);
      if NeedsFetch(shardCountOption, shardCount, options) {
        fetches := fetches + 1;
      }
      if count == 0 {
        return Failure(ZeroShardCount);
      }
      shardCount := count;
      if shardEnd == Some(-1) {
        shardEnd := Some(count - 1);
      }
      Launch(dbUrl, gatewayUrl, wait, fetchedUrl, RunDelay(delay), tooks);
      r := Success(());
    }

    /** The rest of a first `run` once the count is known: connect the
        models, start the shards in order, then mark the cluster as ran and
        emit `ready`. */
    method Launch(dbUrl: string, gatewayUrl: string, wait: Option<bool>, fetchedUrl: string, maxDelay: int, tooks: seq<int>)
      requires Valid() && !ran
      modifies this, models
      ensures Valid() && ran && events == old(events) + [ClusterReady]
      ensures shardCount == old(shardCount) && shardStart == old(shardStart) && shardEnd == old(shardEnd)
      ensures fetches == old(fetches)
      ensures order == ShardIds(shardStart, shardEnd)
      ensures forall k :: k in shards ==>
        fresh(shards[k]) && Started(shards[k], k, shardCount, gatewayUrl, wait, fetchedUrl)
      ensures models.connections == old(models.connections) + [dbUrl] + Repeat(dbUrl, |order|)
      ensures models.store == old(models.store)
      ensures sleeps == old(sleeps) + ShardSleeps(maxDelay, tooks, |order|, |order|)
    {
      models.Connect(dbUrl);
      var started, ids, pauses := StartShards(dbUrl, shardCount, gatewayUrl, wait, fetchedUrl, maxDelay, tooks);
      ShardIdsCover(shardStart, shardEnd);
      shards := started;
      order := ids;
      sleeps := sleeps + pauses;
      ran := true;
      events := events + [ClusterReady];
    }

    /** The loop of `kill`: every shard, in insertion order, closes its
        gateway and wipes its records from the shared models. */
    method KillShards()
      requires Valid()
      modifies models, shards.Values
      ensures WipedUpTo(models.store, old(models.store), order, |order|)
      ensures forall k :: k in shards ==> shards[k].effects == old(shards[k].effects) + [KillGateway]
      ensures models.connections == old(models.connections)
    {
      ghost var before := models.store;
      for i := 0 to |order|
        invariant WipedUpTo(models.store, before, order, i)
        invariant forall j :: 0 <= j < |order| ==>
          shards[order[j]].effects == old(shards[order[j]].effects) + (if j < i then [KillGateway] else [])
        invariant models.connections == old(models.connections)
      {
        KillAt(before, i);
      }
      forall k | k in shards
        ensures shards[k].effects == old(shards[k].effects) + [KillGateway]
      {
        var j :| 0 <= j < |order| && order[j] == k;
      }
    }

    /** One iteration of that loop: the `i`-th shard in insertion order. */
    method KillAt(ghost before: Store, i: nat)
      requires Valid() && i < |order| && WipedUpTo(models.store, before, order, i)
      modifies models, shards[order[i]]
      ensures WipedUpTo(models.store, before, order, i + 1)
      ensures shards[order[i]].effects == old(shards[order[i]].effects) + [KillGateway]
      ensures forall k :: k in shards && k != order[i] ==> shards[k].effects == old(shards[k].effects)
      ensures models.connections == old(models.connections)
    {
      var shard := shards[order[i]];
      assert shard.models == models && shard.shardId == order[i];
      ghost var mid := models.store;
      shard.Kill();
      WipedUpToStep(mid, models.store, before, order, i);
    }

    /** `kill`: only after a run, kills every shard, empties the collection,
        clears `ran` and emits `killed`. */
    method Kill()
      requires Valid()
      modifies this, models, shards.Values
      ensures Valid()
      ensures shardCount == old(shardCount) && shardStart == old(shardStart) && shardEnd == old(shardEnd)
      ensures fetches == old(fetches) && sleeps == old(sleeps) && models.connections == old(models.connections)
      ensures !old(ran) ==>
        !ran && shards == old(shards) && order == old(order) && events == old(events) && models.store == old(models.store)
      ensures old(ran) ==>
        !ran && shards == map[] && order == [] && events == old(events) + [ClusterKilled] &&
        WipedUpTo(models.store, old(models.store), old(order), |old(order)|) &&
        (forall k :: k in old(shards) ==> old(shards)[k].effects == old(shards[k].effects) + [KillGateway])
    {
      if ran {
        KillShards();
        shards := map[];
        order := [];
        ran := false;
        events := events + [ClusterKilled];
      }
    }
  }

  /** A second `run` does nothing: no new shard, connection or sleep. */
  method RunTwice(c: ProxyCluster, dbUrl: string, fetchedShards: int, fetchedUrl: string, tooks: seq<int>)
    requires c.Valid() && !c.ran
    modifies c, c.models
    ensures c.ran ==> c.order == ShardIds(c.shardStart, c.shardEnd)
    ensures c.ran ==> c.models.connections == old(c.models.connections) + [dbUrl] + Repeat(dbUrl, |c.order|)
  {
    var first := c.Run(dbUrl, None, None, None, None, fetchedShards, fetchedUrl, tooks);
    var second := c.Run(dbUrl, None, None, None, None, fetchedShards, fetchedUrl, tooks);
  }
}
